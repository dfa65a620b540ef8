/** The chat messages an agent sends to a model, and what it means for tool
    results to be properly attached to the calls that asked for them. */
module Messages {
  import opened Texts

  datatype ToolCall = ToolCall(id: string, name: string, args: string)

  datatype Message =
    | System(content: Text)
    | Human(content: Text)
    | AI(content: Text, calls: seq<ToolCall>)
    | Tool(content: Text, callId: string)

  /** The usable call ids of an AI message (an empty id is never matched). */
  function Ids(calls: seq<ToolCall>): set<string> {
    set c | c in calls && c.id != "" :: c.id
  }

  /** The ids a tool result may answer after `ms`: those named by the nearest
      preceding non-tool message, when that message is an AI message. */
  function Open(ms: seq<Message>): set<string> {
    if ms == [] then {}
    else
      match ms[|ms| - 1]
      case AI(_, calls) => Ids(calls)
      case Tool(_, _) => Open(ms[..|ms| - 1])
      case _ => {}
  }

  /** Each tool result answers a call that is still open where it stands. */
  predicate ToolValid(ms: seq<Message>) {
    forall i | 0 <= i < |ms| && ms[i].Tool? :: ms[i].callId in Open(ms[..i])
  }

  predicate AllTools(ms: seq<Message>) {
    forall m | m in ms :: m.Tool?
  }

  /** Message k is an AI message naming `id`, and only tool results follow it. */
  predicate NearestCall(ms: seq<Message>, k: nat, id: string) {
    k < |ms| && ms[k].AI? && id in Ids(ms[k].calls) && forall j | k < j < |ms| :: ms[j].Tool?
  }

  /** `Open` says what it should: an AI message names the id, and only tool
      results stand between it and the end. */
  lemma {:induction false} OpenMeaning(ms: seq<Message>, id: string)
    ensures id in Open(ms) <==> exists k :: NearestCall(ms, k, id)
  {
    if ms != [] {
      var last := |ms| - 1;
      var init := ms[..last];
      if ms[last].Tool? {
        OpenMeaning(init, id);
        if id in Open(ms) {
          var k :| NearestCall(init, k, id);
          assert NearestCall(ms, k, id);
        }
        if k :| NearestCall(ms, k, id) {
          assert NearestCall(init, k, id);
        }
      } else if id in Open(ms) {
        assert NearestCall(ms, last, id);
      }
    }
  }

  lemma {:induction false} OpenTools(a: seq<Message>, b: seq<Message>)
    requires AllTools(b)
    ensures Open(a + b) == Open(a)
  {
    if b == [] {
      assert a + b == a;
    } else {
      var init := b[..|b| - 1];
      assert b[|b| - 1] in b;
      assert forall m | m in init :: m in b;
      assert (a + b)[..|a + b| - 1] == a + init;
      OpenTools(a, init);
    }
  }

  lemma {:induction false} OpenToolsOnly(b: seq<Message>)
    requires AllTools(b)
    ensures Open(b) == {}
  {
    OpenTools([], b);
    assert [] + b == b;
  }

  /** Once a non-tool message has been seen, nothing before it matters. */
  lemma {:induction false} OpenSuffix(a: seq<Message>, b: seq<Message>)
    requires !AllTools(b)
    ensures Open(a + b) == Open(b)
  {
    var init := b[..|b| - 1];
    if b[|b| - 1].Tool? {
      assert b == init + [b[|b| - 1]];
      assert (a + b)[..|a + b| - 1] == a + init;
      OpenSuffix(a, init);
    }
  }

  lemma ValidConcat(a: seq<Message>, b: seq<Message>)
    requires ToolValid(a) && ToolValid(b)
    ensures ToolValid(a + b)
  {
    forall i | 0 <= i < |a + b| && (a + b)[i].Tool?
      ensures (a + b)[i].callId in Open((a + b)[..i])
    {
      if i < |a| {
        assert (a + b)[..i] == a[..i];
      } else {
        var j := i - |a|;
        assert (a + b)[..i] == a + b[..j];
        assert b[j].callId in Open(b[..j]);
        if AllTools(b[..j]) { OpenToolsOnly(b[..j]); }
        OpenSuffix(a, b[..j]);
      }
    }
  }

  /** A valid list cut before a non-tool message leaves two valid lists. */
  lemma ValidSplit(a: seq<Message>, b: seq<Message>)
    requires ToolValid(a + b)
    requires b == [] || !b[0].Tool?
    ensures ToolValid(a) && ToolValid(b)
  {
    forall i | 0 <= i < |a| && a[i].Tool?
      ensures a[i].callId in Open(a[..i])
    {
      assert (a + b)[..i] == a[..i];
      assert (a + b)[i] == a[i];
    }
    forall j | 0 <= j < |b| && b[j].Tool?
      ensures b[j].callId in Open(b[..j])
    {
      assert (a + b)[|a| + j] == b[j];
      assert (a + b)[..|a| + j] == a + b[..j];
      assert b[..j][0] == b[0];
      assert b[0] in b[..j];
      OpenSuffix(a, b[..j]);
    }
  }

  /** The AI message is followed by the results of (some of) its calls. */
  lemma ValidTurn(a: seq<Message>, content: Text, calls: seq<ToolCall>, results: seq<Message>)
    requires ToolValid(a)
    requires forall m | m in results :: m.Tool? && m.callId in Ids(calls)
    ensures ToolValid(a + [AI(content, calls)] + results)
    ensures Open(a + [AI(content, calls)] + results) == Ids(calls)
  {
    var head := a + [AI(content, calls)];
    var all := head + results;
    assert Open(head) == Ids(calls);
    OpenTools(head, results);
    forall i | 0 <= i < |all| && all[i].Tool?
      ensures all[i].callId in Open(all[..i])
    {
      if i < |a| {
        assert all[..i] == a[..i];
        assert all[i] == a[i];
      } else {
        var j := i - |head|;
        assert all[..i] == head + results[..j];
        OpenTools(head, results[..j]);
        assert results[j] in results;
      }
    }
  }
}
