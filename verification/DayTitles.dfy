/** The headings of the threads in the log of a day (MemoryManager._upsert_thread_section in
    pawlia/memory.py). */
module DayTitles {
  import opened Texts
  import opened Errors
  import opened DayLog
  import opened DayLogSearch
  import opened DayLogLaws
  import opened DayLogRuns
  import opened DayLogMain

  /** The title of the first section of a thread. */
  function Titled(ss: seq<Section>, id: Text): Option<Text> {
    if ss == [] then None else if ss[0].id == id then Some(ss[0].title) else Titled(ss[1..], id)
  }

  lemma {:induction false} TitledConcat(a: seq<Section>, b: seq<Section>, id: Text)
    ensures Titled(a + b, id) == if Titled(a, id).Some? then Titled(a, id) else Titled(b, id)
  {
    if a == [] {
      assert a + b == b;
    } else {
      assert (a + b)[1..] == a[1..] + b;
      TitledConcat(a[1..], b, id);
    }
  }

  lemma {:induction false} TitledAt(ss: seq<Section>, id: Text)
    ensures var k := Position(ss, id);
            && k <= |ss| && Titled(ss[..k], id) == None
            && (k < |ss| ==> ss[k].id == id && Titled(ss, id) == Some(ss[k].title))
            && (k == |ss| ==> Titled(ss, id) == None)
  {
    if ss != [] && ss[0].id != id {
      TitledAt(ss[1..], id);
      var k := Position(ss[1..], id);
      assert ss[..k + 1][1..] == ss[1..][..k];
    }
  }

  /** A thread keeps the title it was begun with. */
  lemma UpsertedTitle(d: Doc, id: Text, block: Text, title: Text, other: Text)
    ensures Titled(Upserted(d, id, block, title).sections, other)
            == if other == id && Titled(d.sections, id) == None then Some(OrThread(Trim(title)))
               else Titled(d.sections, other)
  {
    var ss, k := d.sections, Position(d.sections, id);
    TitledAt(ss, id);
    if k < |ss| {
      UpsertedKnown(d, id, block, title);
      var s := Section(ss[k].title, id, Grown(ss[k].body, Trim(block)));
      SameTitles(ss, k, s, other);
    } else {
      var s := Section(OrThread(Trim(title)), id, Trim(block));
      TitledConcat(ss, [s], other);
      assert [s][1..] == [];
    }
  }

  lemma SameTitles(ss: seq<Section>, k: nat, s: Section, other: Text)
    requires k < |ss| && s.id == ss[k].id && s.title == ss[k].title
    ensures Titled(ss[..k] + ([s] + ss[k + 1..]), other) == Titled(ss, other)
  {
    assert ss == ss[..k] + ([ss[k]] + ss[k + 1..]);
    TitledConcat(ss[..k], [ss[k]] + ss[k + 1..], other);
    TitledConcat(ss[..k], [s] + ss[k + 1..], other);
    assert ([s] + ss[k + 1..])[1..] == ([ss[k]] + ss[k + 1..])[1..];
  }

  /** The title that a thread is begun with: "Thread" when it is blank. */
  function FirstTitle(ops: seq<Op>, id: Text): Option<Text> {
    if ops == [] then None
    else
      var before := FirstTitle(ops[..|ops| - 1], id);
      match ops[|ops| - 1]
      case Main(_) => before
      case Thread(i, _, title) =>
        if before.Some? || i != id then before
        else Some(if Trim(title) == [] then [84, 104, 114, 101, 97, 100] else Trim(title))
  }

  lemma {:induction false} DayTitled(ops: seq<Op>, id: Text)
    ensures Titled(DayDoc(ops).sections, id) == FirstTitle(ops, id)
  {
    if ops != [] {
      var init, last := ops[..|ops| - 1], ops[|ops| - 1];
      DayTitled(init, id);
      if last.Thread? {
        UpsertedTitle(DayDoc(init), last.id, last.block, last.title, id);
      }
    }
  }

  lemma {:induction false} LocatedTitle(m: Marks, ss: seq<Section>, id: Text)
    ensures match Titled(ss, id)
            case None => Located(m, ss, id) == Absent
            case Some(title) => Located(m, ss, id).Found? && Located(m, ss, id).heading == [35, 35, 32] + title
  {
    if ss != [] && ss[0].id != id {
      LocatedTitle(m, ss[1..], id);
    }
  }

  /** In the log of a day each thread stands under the title it was begun with, whatever
      titles came later; a thread that nothing was written to does not stand there. */
  lemma DayTitle(m: Marks, titleOf: Text -> Text, ops: seq<Op>, id: Text)
    requires Proper(m) && (forall k | 0 <= k < |ops| :: OpOk(m, ops[k])) && (ops != [] ==> ops[0].Main?)
    ensures var f := Search(m, false, Day(m, titleOf, ops), One(id));
            match FirstTitle(ops, id)
            case None => f == Absent
            case Some(title) => f.Found? && f.heading == [35, 35, 32] + title
  {
    var d := DayDoc(ops);
    DayShown(m, titleOf, ops, id);
    SearchShown(m, d, id);
    DayTitled(ops, id);
    LocatedTitle(m, d.sections, id);
    if d.sections != [] {
      LocatedTitle(m, d.sections[1..], id);
    }
  }
}
