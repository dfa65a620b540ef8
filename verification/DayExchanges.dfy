/** The exchanges of a day: written to the main history of the daily log, between
    thread blocks, and read back. */
module DayExchanges {
  import opened Texts
  import opened DayLog
  import opened DayLogSearch
  import opened DayLogRuns
  import opened DayLogMain
  import opened ExchangeLog
  import opened ExchangeParts
  import opened ExchangeRoundTrip

  /** The main entries among the operations are the formatted exchanges, in order. */
  predicate Records(w: Words, ops: seq<Op>, entries: seq<Entry>) {
    if ops == [] then entries == []
    else if ops[|ops| - 1].Thread? then Records(w, ops[..|ops| - 1], entries)
    else
      && entries != [] && ops[|ops| - 1].entry == Format(w, entries[|entries| - 1])
      && Records(w, ops[..|ops| - 1], entries[..|entries| - 1])
  }

  predicate Complete(w: Words, e: Entry) {
    EntryOk(w, e) && (e.bot != [] || e.tools != [])
  }

  lemma LogGrows(w: Words, entries: seq<Entry>, e: Entry)
    requires Wordy(w) && Complete(w, e) && (entries != [] ==> EntryOk(w, entries[0]))
    ensures Grown(Log(w, entries), Trim(Format(w, e))) == Log(w, entries + [e])
  {
    FormatTrimmed(w, e);
    if entries == [] {
      assert [] + [e] == [e];
    } else {
      LogStarts(w, entries);
      LogSnoc(w, entries, e);
    }
  }

  lemma Rejoined(w: Words, entries: seq<Entry>)
    requires entries != []
    ensures Log(w, entries[..|entries| - 1] + [entries[|entries| - 1]]) == Log(w, entries)
  {
    assert entries[..|entries| - 1] + [entries[|entries| - 1]] == entries;
  }

  lemma {:induction false} EntriesLog(w: Words, ops: seq<Op>, entries: seq<Entry>)
    requires Wordy(w) && Records(w, ops, entries) && (forall e | e in entries :: Complete(w, e))
    ensures Entries(ops) == Log(w, entries)
  {
    if ops != [] {
      var n := |ops| - 1;
      if ops[n].Thread? {
        EntriesLog(w, ops[..n], entries);
      } else {
        var init, e := entries[..|entries| - 1], entries[|entries| - 1];
        assert e in entries && forall x | x in init :: x in entries;
        EntriesLog(w, ops[..n], init);
        assert init != [] ==> init[0] in init;
        LogGrows(w, init, e);
        Rejoined(w, entries);
        assert Entries(ops) == Grown(Entries(ops[..n]), Trim(ops[n].entry));
      }
    }
  }

  lemma {:induction false} CompleteLog(w: Words, valid: Text -> bool, entries: seq<Entry>)
    requires forall e | e in entries :: Complete(w, e) && Decodes(valid, e)
    ensures AllOk(w, valid, entries) && Answered(entries)
  {
    if entries != [] {
      assert entries[0] in entries && forall e | e in entries[1..] :: e in entries;
      CompleteLog(w, valid, entries[1..]);
    }
  }

  /** Whatever threads are written in between, the exchanges parsed from the main
      history of the day's text are exactly those that took place. */
  lemma DayParsed(m: Marks, titleOf: Text -> Text, w: Words, valid: Text -> bool, ops: seq<Op>, entries: seq<Entry>)
    requires Proper(m) && (forall k | 0 <= k < |ops| :: OpOk(m, ops[k])) && (ops != [] ==> ops[0].Main?)
    requires Wordy(w) && Records(w, ops, entries)
    requires forall e | e in entries :: Complete(w, e) && Decodes(valid, e)
    ensures Parse(w, valid, MainHistory(m, Day(m, titleOf, ops))) == Exchanges(entries)
  {
    DayHistories(m, titleOf, ops, []);
    EntriesLog(w, ops, entries);
    CompleteLog(w, valid, entries);
    LogParsed(w, valid, entries);
  }
}
