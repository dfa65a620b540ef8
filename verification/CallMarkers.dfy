/** The start of a tool call that a model writes out as text, such as
    "[tool call: name(" (_RE_BRACKET_TOOL_CALL in pawlia/agents/chat.py). */
module CallMarkers {
  import opened Texts
  import opened Errors
  import opened Sentences

  /** A pattern, piece by piece. No piece can begin with what the one before it takes
      in, so that taking as much as there is never needs to be undone. */
  datatype Pattern =
    | Done
    | Either(a: Code, b: Code, next: Pattern)
    | Spaces(next: Pattern)
    | Name(next: Pattern)

  const OPEN: Code := 91
  const COLON: Code := 58
  const PAREN: Code := 40

  /** `\[\s*[Tt]ool\s*[Cc]all\s*:\s*\w+\s*\(` */
  const CALL: Pattern :=
    Either(OPEN, OPEN, Spaces(
      Either(84, 116, Either(111, 111, Either(111, 111, Either(108, 108, Spaces(
        Either(67, 99, Either(97, 97, Either(108, 108, Either(108, 108, Spaces(
          Either(COLON, COLON, Spaces(Name(Spaces(Either(PAREN, PAREN, Done)))))))))))))))))

  /** The text from the first character on that is none of a word; `wordy` are the
      characters of words. */
  function DropWord(wordy: Code -> bool, t: Text): (r: Text)
    ensures |r| <= |t|
  {
    if t != [] && wordy(t[0]) then DropWord(wordy, t[1..]) else t
  }

  /** The text starts with the pattern. */
  predicate Begins(wordy: Code -> bool, p: Pattern, t: Text) {
    match p
    case Done => true
    case Either(a, b, next) => t != [] && (t[0] == a || t[0] == b) && Begins(wordy, next, t[1..])
    case Spaces(next) => Begins(wordy, next, TrimLeft(t))
    case Name(next) => t != [] && wordy(t[0]) && Begins(wordy, next, DropWord(wordy, t))
  }

  /** Where the first marker of a call begins. */
  function Marker(wordy: Code -> bool, t: Text): (r: Option<nat>)
    ensures r.Some? ==> r.value < |t| && t[r.value] == OPEN
  {
    if t == [] then None
    else if Begins(wordy, CALL, t) then Some(0)
    else
      match Marker(wordy, t[1..])
      case Some(n) => Some(n + 1)
      case None => None
  }

  predicate Marked(wordy: Code -> bool, t: Text) {
    Marker(wordy, t).Some?
  }

  /** Ends in a character that has to be there. */
  predicate Ended(p: Pattern) {
    match p
    case Done => false
    case Either(_, _, next) => next == Done || Ended(next)
    case Spaces(next) => Ended(next)
    case Name(next) => Ended(next)
  }

  lemma {:induction false} TrimLeftMore(t: Text, d: Text)
    requires TrimLeft(t) != []
    ensures TrimLeft(t + d) == TrimLeft(t) + d
  {
    assert (t + d)[1..] == t[1..] + d;
    if IsSpace(t[0]) {
      TrimLeftMore(t[1..], d);
    }
  }

  lemma {:induction false} DropWordMore(wordy: Code -> bool, t: Text, d: Text)
    requires DropWord(wordy, t) != []
    ensures DropWord(wordy, t + d) == DropWord(wordy, t) + d
  {
    assert (t + d)[1..] == t[1..] + d;
    if wordy(t[0]) {
      DropWordMore(wordy, t[1..], d);
    }
  }

  /** What begins with the pattern still does when more text comes. */
  lemma {:induction false} BeginsMore(wordy: Code -> bool, p: Pattern, t: Text, d: Text)
    requires Begins(wordy, p, t) && Ended(p)
    ensures t != [] && Begins(wordy, p, t + d)
  {
    match p {
      case Either(_, _, next) =>
        assert (t + d)[1..] == t[1..] + d;
        if next != Done {
          BeginsMore(wordy, next, t[1..], d);
        }
      case Spaces(next) =>
        BeginsMore(wordy, next, TrimLeft(t), d);
        TrimLeftMore(t, d);
      case Name(next) =>
        BeginsMore(wordy, next, DropWord(wordy, t), d);
        DropWordMore(wordy, t, d);
    }
  }

  lemma CallEnded()
    ensures Ended(CALL)
  {
    var tail := Either(COLON, COLON, Spaces(Name(Spaces(Either(PAREN, PAREN, Done)))));
    assert Ended(tail);
    var all := Either(97, 97, Either(108, 108, Either(108, 108, Spaces(tail))));
    assert Ended(all);
    var word := Either(111, 111, Either(111, 111, Either(108, 108, Spaces(Either(67, 99, all)))));
    assert Ended(word);
  }

  /** A marker that was seen stays. */
  lemma {:induction false} MarkedGrows(wordy: Code -> bool, t: Text, d: Text)
    requires Marked(wordy, t)
    ensures Marked(wordy, t + d)
  {
    if Begins(wordy, CALL, t) {
      CallEnded();
      BeginsMore(wordy, CALL, t, d);
    } else {
      assert (t + d)[1..] == t[1..] + d;
      MarkedGrows(wordy, t[1..], d);
    }
  }

  // ------------------------------------------------------------------- a marker

  /** The first letter of a pattern is no white space. */
  predicate Firm(p: Pattern) {
    p.Name? || (p.Either? && !IsSpace(p.a))
  }

  /** Some text begins with the pattern, without "<" and without stops. */
  predicate Writable(wordy: Code -> bool, p: Pattern) {
    match p
    case Done => true
    case Either(a, _, next) => !IsStop(a) && a != 60 && Writable(wordy, next)
    case Spaces(next) => Firm(next) && Writable(wordy, next)
    case Name(next) =>
      wordy(102) && next.Spaces? && next.next.Either? && !wordy(next.next.a) && Writable(wordy, next)
  }

  /** The pattern written out: no white space, and "f" for a name. */
  function Written(p: Pattern): Text {
    match p
    case Done => []
    case Either(a, _, next) => [a] + Written(next)
    case Spaces(next) => Written(next)
    case Name(next) => [102] + Written(next)
  }

  lemma {:induction false} WrittenBegins(wordy: Code -> bool, p: Pattern)
    requires Writable(wordy, p)
    ensures Begins(wordy, p, Written(p))
    ensures forall c | c in Written(p) :: !IsStop(c) && c != 60
  {
    match p {
      case Done =>
      case Either(a, _, next) =>
        WrittenBegins(wordy, next);
      case Spaces(next) =>
        WrittenBegins(wordy, next);
      case Name(next) =>
        WrittenBegins(wordy, next);
        assert ([102] + Written(next))[1..] == Written(next);
        assert DropWord(wordy, Written(next)) == Written(next);
    }
  }

  /** "[ToolCall:f(" */
  lemma CallWritten(wordy: Code -> bool)
    requires wordy(102) && !wordy(PAREN)
    ensures Begins(wordy, CALL, Written(CALL)) && Written(CALL) != [] && Written(CALL)[0] == OPEN
    ensures forall c | c in Written(CALL) :: !IsStop(c) && c != 60
  {
    var tail := Either(COLON, COLON, Spaces(Name(Spaces(Either(PAREN, PAREN, Done)))));
    assert Writable(wordy, tail);
    var all := Either(97, 97, Either(108, 108, Either(108, 108, Spaces(tail))));
    assert Writable(wordy, all);
    var word := Either(111, 111, Either(111, 111, Either(108, 108, Spaces(Either(67, 99, all)))));
    assert Writable(wordy, word);
    WrittenBegins(wordy, CALL);
  }
}
