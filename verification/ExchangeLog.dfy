/** Exchanges written to and read from the log (MemoryManager._format_exchange_entry
    and _parse_exchanges in pawlia/memory.py). */
module ExchangeLog {
  import opened Texts
  import opened DayLog
  import opened Errors

  /** The fixed words of the format. */
  datatype Words = Words(user: Text, assistant: Text, opening: Text, tool: Text, closing: Text)

  const LOG := Words(Lit("User:"), Lit("Assistant:"), Lit("<!--"), Lit("TOOL_CALL:"), Lit("-->"))

  const LB: Code := 91
  const RB: Code := 93
  const LBRACE: Code := 123
  const RBRACE: Code := 125

  /** One exchange; a tool call is its JSON text. */
  datatype Entry = Entry(stamp: Text, user: Text, bot: Text, tools: seq<Text>)

  datatype Exchange = Exchange(user: Text, bot: Text, tools: Option<seq<Text>>)

  // ------------------------------------------------------------------- writing

  function Comment(w: Words, json: Text): Text {
    w.opening + ([SPACE] + (w.tool + ([SPACE] + (json + ([SPACE] + w.closing)))))
  }

  function Comments(w: Words, tools: seq<Text>): Text {
    if tools == [] then [] else [NL] + (Comment(w, tools[0]) + Comments(w, tools[1..]))
  }

  function Reply(w: Words, e: Entry): Text {
    e.bot + Comments(w, e.tools)
  }

  function Format(w: Words, e: Entry): Text {
    [LB] + (e.stamp + ([RB] + ([SPACE] + (w.user + ([SPACE]
    + (e.user + ([NL] + (w.assistant + ([SPACE] + Reply(w, e))))))))))
  }

  /** The entries, one after the other. */
  function Log(w: Words, entries: seq<Entry>): Text {
    if entries == [] then []
    else if |entries| == 1 then Format(w, entries[0])
    else Format(w, entries[0]) + ([NL] + Log(w, entries[1..]))
  }

  // ------------------------------------------------------------------- reading

  /** `[\d:]`, with the digits of ASCII. */
  predicate IsStamp(c: Code) {
    48 <= c <= 58
  }

  function DropStamp(t: Text): (r: Text)
    ensures |r| <= |t|
  {
    if t != [] && IsStamp(t[0]) then DropStamp(t[1..]) else t
  }

  /** `\[[\d:]+\]\s*User:` at the start of a text: what follows it. */
  function Head(w: Words, t: Text): Option<Text> {
    if t == [] || t[0] != LB then None
    else
      var r := DropStamp(t[1..]);
      if |r| == |t| - 1 || r == [] || r[0] != RB then None
      else
        var s := TrimLeft(r[1..]);
        if w.user <= s then Some(s[|w.user|..]) else None
  }

  /** A line break and the head of an entry. */
  predicate Delimits(w: Words, t: Text) {
    t != [] && t[0] == NL && Head(w, t[1..]).Some?
  }

  /** The text up to the first delimiter or the end, and the rest. */
  function UntilNext(w: Words, t: Text): (r: (Text, Text))
    ensures r.0 + r.1 == t
  {
    if t == [] || Delimits(w, t) then ([], t)
    else
      var (bot, rest) := UntilNext(w, t[1..]);
      assert [t[0]] + t[1..] == t;
      ([t[0]] + bot, rest)
  }

  datatype Raw = Raw(user: Text, bot: Text, rest: Text) | NoEntry

  function ReadReply(w: Words, user: Text, t: Text): Raw {
    var (bot, rest) := UntilNext(w, TrimLeft(t));
    Raw(user, bot, rest)
  }

  /** An entry at the start of a text. The blanks after the user word are eaten
      first; only when no answer follows are they given back for an empty question. */
  function ReadEntry(w: Words, t: Text): Raw {
    match Head(w, t)
    case None => NoEntry
    case Some(a) =>
      var u := TrimLeft(a);
      match Find(u, [NL] + w.assistant)
      case Split(user, after) => ReadReply(w, user, after)
      case Nowhere =>
        var blanks := |a| - |u|;
        if blanks > 0 && a[blanks - 1] == NL && w.assistant <= u then ReadReply(w, [], u[|w.assistant|..])
        else NoEntry
  }

  /** A tool comment at the start of a text: its JSON, and what follows. */
  datatype Call = Call(json: Text, rest: Text) | NoCall

  /** The shortest text that ends in a brace with the end of a comment behind it. */
  function Brace(w: Words, t: Text): (c: Call)
    ensures c.Call? ==> |c.rest| <= |t|
  {
    if t == [] then NoCall
    else if t[0] == RBRACE && w.closing <= TrimLeft(t[1..]) then
      Call([RBRACE], TrimLeft(t[1..])[|w.closing|..])
    else
      match Brace(w, t[1..])
      case NoCall => NoCall
      case Call(json, rest) => Call([t[0]] + json, rest)
  }

  function ReadCall(w: Words, t: Text): (c: Call)
    ensures c.Call? ==> |c.rest| < |t|
  {
    if !(w.opening <= t) then NoCall
    else
      var a := TrimLeft(t[|w.opening|..]);
      if !(w.tool <= a) then NoCall
      else
        var b := TrimLeft(a[|w.tool|..]);
        if b == [] || b[0] != LBRACE then NoCall
        else
          match Brace(w, b[1..])
          case NoCall => NoCall
          case Call(json, rest) => Call([LBRACE] + json, rest)
  }

  function Calls(w: Words, t: Text): seq<Text>
    decreases |t|
  {
    if t == [] then []
    else
      match ReadCall(w, t)
      case Call(json, rest) => [json] + Calls(w, rest)
      case NoCall => Calls(w, t[1..])
  }

  /** `text.replace(p, "")` */
  function Erase(t: Text, p: Text): Text {
    if p == [] then t
    else if p <= t then Erase(t[|p|..], p)
    else if t == [] then []
    else [t[0]] + Erase(t[1..], p)
  }

  /** The JSON texts that decode, and the visible text without their comments. */
  function Decoded(valid: Text -> bool, calls: seq<Text>): seq<Text> {
    if calls == [] then []
    else Decoded(valid, calls[..|calls| - 1]) + if valid(calls[|calls| - 1]) then [calls[|calls| - 1]] else []
  }

  function Visible(w: Words, valid: Text -> bool, bot: Text, calls: seq<Text>): Text {
    if calls == [] then bot
    else
      var before := Visible(w, valid, bot, calls[..|calls| - 1]);
      var json := calls[|calls| - 1];
      if valid(json) then Trim(Erase(before, Comment(w, json))) else before
  }

  function Finish(w: Words, valid: Text -> bool, user: Text, bot: Text): Exchange {
    var calls := Calls(w, Trim(bot));
    Exchange(Trim(user), Visible(w, valid, Trim(bot), calls), if calls == [] then None else Some(Decoded(valid, calls)))
  }

  lemma HeadShrinks(w: Words, t: Text)
    ensures Head(w, t).Some? ==> |Head(w, t).value| < |t|
  {}

  lemma UntilNextShrinks(w: Words, t: Text)
    ensures |UntilNext(w, t).1| <= |t|
  {}

  lemma ReadShrinks(w: Words, t: Text)
    ensures ReadEntry(w, t).Raw? ==> |ReadEntry(w, t).rest| < |t|
  {
    HeadShrinks(w, t);
    if Head(w, t).Some? {
      var u := TrimLeft(Head(w, t).value);
      match Find(u, [NL] + w.assistant)
      case Split(user, after) => UntilNextShrinks(w, TrimLeft(after));
      case Nowhere =>
        if w.assistant <= u {
          UntilNextShrinks(w, TrimLeft(u[|w.assistant|..]));
        }
    }
  }

  function Parse(w: Words, valid: Text -> bool, t: Text): seq<Exchange>
    decreases |t|
  {
    if t == [] then []
    else
      ReadShrinks(w, t);
      match ReadEntry(w, t)
      case Raw(user, bot, rest) => [Finish(w, valid, user, bot)] + Parse(w, valid, rest)
      case NoEntry => Parse(w, valid, t[1..])
  }

  /** Taking the tool calls out of an answer, one after the other. */
  method TakeCalls(w: Words, valid: Text -> bool, bot: Text) returns (visible: Text, tools: Option<seq<Text>>)
    ensures visible == Visible(w, valid, bot, Calls(w, bot))
    ensures tools == if Calls(w, bot) == [] then None else Some(Decoded(valid, Calls(w, bot)))
  {
    var calls := Calls(w, bot);
    visible, tools := bot, None;
    if calls != [] {
      var decoded := [];
      for k := 0 to |calls|
        invariant visible == Visible(w, valid, bot, calls[..k]) && decoded == Decoded(valid, calls[..k])
      {
        assert calls[..k + 1][..k] == calls[..k];
        if valid(calls[k]) {
          decoded := decoded + [calls[k]];
          visible := Trim(Erase(visible, Comment(w, calls[k])));
        }
      }
      assert calls[..|calls|] == calls;
      tools := Some(decoded);
    }
  }

  lemma ParseEntry(w: Words, valid: Text -> bool, t: Text, done: seq<Exchange>)
    requires t != [] && ReadEntry(w, t).Raw?
    ensures var r := ReadEntry(w, t);
            done + Parse(w, valid, t) == (done + [Finish(w, valid, r.user, r.bot)]) + Parse(w, valid, r.rest)
  {
    var r := ReadEntry(w, t);
    var x, y := Finish(w, valid, r.user, r.bot), Parse(w, valid, r.rest);
    assert done + ([x] + y) == (done + [x]) + y;
  }

  lemma ParseSkips(w: Words, valid: Text -> bool, t: Text)
    requires t != [] && ReadEntry(w, t) == NoEntry
    ensures Parse(w, valid, t) == Parse(w, valid, t[1..])
  {}

  /** Reading a history entry by entry. */
  method ParseExchanges(w: Words, valid: Text -> bool, history: Text) returns (exchanges: seq<Exchange>)
    ensures exchanges == Parse(w, valid, history)
  {
    exchanges := [];
    var rest := history;
    while rest != []
      invariant exchanges + Parse(w, valid, rest) == Parse(w, valid, history)
      decreases |rest|
    {
      ReadShrinks(w, rest);
      match ReadEntry(w, rest)
      case Raw(user, bot, after) =>
        ParseEntry(w, valid, rest, exchanges);
        var visible, tools := TakeCalls(w, valid, Trim(bot));
        exchanges := exchanges + [Exchange(Trim(user), visible, tools)];
        rest := after;
      case NoEntry =>
        ParseSkips(w, valid, rest);
        rest := rest[1..];
    }
  }
}
