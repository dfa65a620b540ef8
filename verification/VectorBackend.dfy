/** The index as an object with its files, and what is true of it over any run of
    insertions (SimpleVectorBackend in pawlia/rag_backend.py). */
module VectorBackend {
  import opened Texts
  import opened Errors
  import opened Chunker
  import opened VectorIndex

  /** The two files, as far as they exist. */
  datatype Disk = Disk(vectors: Option<seq<Vector>>, entries: Option<(seq<Text>, seq<Meta>)>)

  datatype State = State(lists: Lists, indexed: set<int>, disk: Disk)

  /** Writing: without vectors the old vector file stays as it is. */
  function Save(l: Lists, d: Disk): Disk {
    Disk(if l.vectors.Some? then l.vectors else d.vectors, Some((l.chunks, l.meta)))
  }

  /** The file of entries has a text and a document for each of them. */
  predicate FilesOk(d: Disk) {
    d.entries.Some? ==> |d.entries.value.0| == |d.entries.value.1|
  }

  /** Every chunk has its document; it may lack its vector. */
  predicate Whole(s: State) {
    |s.lists.chunks| == |s.lists.meta| && FilesOk(s.disk)
  }

  /** Reading, when both files are there. */
  function Load(d: Disk): (s: State)
    ensures s.disk == d && (FilesOk(d) ==> Whole(s))
  {
    if d.vectors.Some? && d.entries.Some? then
      State(Lists(d.entries.value.0, d.entries.value.1, d.vectors), DocsOf(d.entries.value.1), d)
    else State(Lists([], [], None), {}, d)
  }

  /** Without the entries of a document that is indexed. When one that is to be kept has
      no vector, this fails half-way. */
  function Removed(s: State, doc: int): (r: (State, bool))
    requires Whole(s)
    ensures Whole(r.0)
  {
    KeptPairs(s.lists, doc, |s.lists.meta|);
    if doc !in s.indexed then (s, true)
    else
      var k := Kept(s.lists, doc, |s.lists.meta|);
      if s.lists.vectors.Some? && Missing(s.lists, doc, |s.lists.meta|) then
        (s.(lists := Lists(k.chunks, k.meta, s.lists.vectors)), false)
      else (s.(lists := k, indexed := s.indexed - {doc}), true)
  }

  lemma {:induction false} KeptPairs(l: Lists, doc: int, n: nat)
    requires n <= |l.chunks| == |l.meta|
    ensures |Kept(l, doc, n).chunks| == |Kept(l, doc, n).meta|
  {
    if n > 0 {
      KeptPairs(l, doc, n - 1);
    }
  }

  lemma {:induction false} AddPairs(l: Lists, doc: int, chunks: seq<Text>, vectors: seq<Vector>, n: nat)
    requires |l.chunks| == |l.meta| && n <= |chunks| && n <= |vectors|
    ensures var a := Add(l, doc, chunks, vectors, n).lists; |a.chunks| == |a.meta|
  {
    if n > 0 {
      AddPairs(l, doc, chunks, vectors, n - 1);
    }
  }

  /** The embedding fails: the service did, or its vectors do not make an array. */
  predicate Refused(e: Embedding) {
    e.Failed? || !SameDim(e.vectors)
  }

  /** Indexing a text under an id, given the answer of the embedding service. */
  function Inserted(s: State, text: Text, doc: int, e: Embedding): (r: (State, Outcome))
    requires Whole(s)
    ensures Whole(r.0)
  {
    var (r, ok) := Removed(s, doc);
    if !ok then (r, BadIndex)
    else if Refused(e) then (r, NotEmbedded)
    else
      var chunks := Chunks(text);
      var n := Fewer(|chunks|, |e.vectors|);
      var a := Add(r.lists, doc, chunks, e.vectors, n);
      AddPairs(r.lists, doc, chunks, e.vectors, n);
      if !a.ok then (r.(lists := a.lists), BadShape)
      else (State(a.lists, r.indexed + {doc}, Save(a.lists, r.disk)), Indexed)
  }

  class SimpleVectorBackend {
    var chunks: seq<Text>
    var meta: seq<Meta>
    var vectors: Option<seq<Vector>>
    var indexed: set<int>
    var disk: Disk

    ghost function Value(): State
      reads this
    {
      State(Lists(chunks, meta, vectors), indexed, disk)
    }

    ghost predicate Valid()
      reads this
    {
      Whole(Value())
    }

    /** Open the index of a directory. */
    constructor (files: Disk)
      requires FilesOk(files)
      ensures Valid() && Value() == Load(files)
    {
      disk := files;
      chunks, meta, vectors, indexed := [], [], None, {};
      if files.vectors.Some? && files.entries.Some? {
        var (texts, ids) := files.entries.value;
        chunks, meta, vectors := texts, ids, files.vectors;
        var docs := {};
        for k := 0 to |ids|
          invariant docs == DocsOf(ids[..k])
        {
          assert ids[..k + 1][..k] == ids[..k];
          docs := docs + {ids[k].doc};
        }
        assert ids[..|ids|] == ids;
        indexed := docs;
      }
    }

    method Remove(doc: int) returns (ok: bool)
      requires Valid()
      modifies `chunks, `meta, `vectors, `indexed
      ensures Valid() && (Value(), ok) == Removed(old(Value()), doc)
    {
      if doc !in indexed {
        return true;
      }
      var missing := false;
      ghost var l := Value().lists;
      var keptChunks: seq<Text>, keptMeta: seq<Meta>, keptVectors: Option<seq<Vector>> := [], [], None;
      for k := 0 to |meta|
        invariant Value() == old(Value()) && l == Value().lists && Whole(Value())
        invariant Lists(keptChunks, keptMeta, keptVectors) == Kept(l, doc, k) && missing == Missing(l, doc, k)
      {
        if meta[k].doc != doc {
          keptChunks, keptMeta := keptChunks + [chunks[k]], keptMeta + [meta[k]];
          if k < |VectorsOf(vectors)| {
            keptVectors := Some(VectorsOf(keptVectors) + [VectorsOf(vectors)[k]]);
          } else {
            missing := true;
          }
        }
      }
      KeptPairs(l, doc, |meta|);
      chunks, meta := keptChunks, keptMeta;
      if vectors.Some? && missing {
        return false;
      }
      vectors := keptVectors;
      indexed := indexed - {doc};
      return true;
    }

    /** Add the chunks that have vectors; a vector of another length stops it. */
    method Append(doc: int, pieces: seq<Text>, given: seq<Vector>) returns (ok: bool)
      requires Valid()
      modifies `chunks, `meta, `vectors
      ensures var a := Add(old(Value()).lists, doc, pieces, given, Fewer(|pieces|, |given|));
              Value() == old(Value()).(lists := a.lists) && ok == a.ok
    {
      var n := Fewer(|pieces|, |given|);
      ghost var l := Value().lists;
      for k := 0 to n
        invariant Added(Lists(chunks, meta, vectors), true) == Add(l, doc, pieces, given, k)
      {
        chunks := chunks + [pieces[k]];
        meta := meta + [Meta(doc, k)];
        if VectorsOf(vectors) != [] && |given[k]| != |VectorsOf(vectors)[0]| {
          AddStops(l, doc, pieces, given, k + 1, n);
          return false;
        }
        vectors := Some(VectorsOf(vectors) + [given[k]]);
      }
      return true;
    }

    method Insert(text: Text, doc: int, e: Embedding) returns (o: Outcome)
      requires Valid()
      modifies this
      ensures Valid() && (Value(), o) == Inserted(old(Value()), text, doc, e)
    {
      var removed := Remove(doc);
      if !removed {
        return BadIndex;
      }
      ghost var r := Value();
      var pieces := ChunkText(text);
      if Refused(e) {
        return NotEmbedded;
      }
      var added := Append(doc, pieces, e.vectors);
      AddPairs(r.lists, doc, pieces, e.vectors, Fewer(|pieces|, |e.vectors|));
      if !added {
        return BadShape;
      }
      indexed := indexed + {doc};
      disk := Save(Lists(chunks, meta, vectors), disk);
      return Indexed;
    }
  }

  lemma {:induction false} AddStops(l: Lists, doc: int, chunks: seq<Text>, vectors: seq<Vector>, k: nat, n: nat)
    requires k <= n <= |chunks| && n <= |vectors| && !Add(l, doc, chunks, vectors, k).ok
    ensures Add(l, doc, chunks, vectors, n) == Add(l, doc, chunks, vectors, k)
    decreases n
  {
    if k < n {
      AddStops(l, doc, chunks, vectors, k, n - 1);
    }
  }

  // --------------------------------------------------------------------- rows and ids

  /** The lists are in step and the indexed documents are those with entries. */
  predicate Sound(s: State) {
    Parallel(s.lists) && s.indexed == Ids(Rows(s.lists))
  }

  lemma {:induction false} IdsWithout(rows: seq<Row>, doc: int)
    ensures Ids(Without(rows, doc)) == Ids(rows) - {doc}
  {
    if rows != [] {
      var n := |rows| - 1;
      IdsWithout(rows[..n], doc);
      var w := Without(rows[..n], doc);
      if rows[n].doc != doc {
        assert (w + [rows[n]])[..|w|] == w;
      } else {
        assert w + [] == w;
      }
    }
  }

  lemma {:induction false} WithoutStranger(rows: seq<Row>, doc: int)
    requires doc !in Ids(rows)
    ensures Without(rows, doc) == rows
  {
    if rows != [] {
      WithoutStranger(rows[..|rows| - 1], doc);
    }
  }

  lemma {:induction false} IdsJoin(x: seq<Row>, y: seq<Row>)
    ensures Ids(x + y) == Ids(x) + Ids(y)
  {
    if y == [] {
      assert x + y == x;
    } else {
      assert (x + y)[..|x + y| - 1] == x + y[..|y| - 1];
      IdsJoin(x, y[..|y| - 1]);
    }
  }

  lemma {:induction false} IdsNew(doc: int, chunks: seq<Text>, vectors: seq<Vector>, n: nat)
    requires n <= |chunks| && n <= |vectors|
    ensures Ids(NewRows(doc, chunks, vectors, n)) == if n == 0 then {} else {doc}
  {
    if n > 0 {
      var before := NewRows(doc, chunks, vectors, n - 1);
      IdsNew(doc, chunks, vectors, n - 1);
      var r := Row(chunks[n - 1], doc, n - 1, vectors[n - 1]);
      assert (before + [r])[..|before|] == before;
    }
  }

  lemma {:induction false} OfJoin(x: seq<Row>, y: seq<Row>, doc: int)
    ensures Of(x + y, doc) == Of(x, doc) + Of(y, doc)
  {
    if y == [] {
      assert x + y == x;
    } else {
      assert (x + y)[..|x + y| - 1] == x + y[..|y| - 1];
      OfJoin(x, y[..|y| - 1], doc);
    }
  }

  lemma {:induction false} OfWithout(rows: seq<Row>, doc: int, other: int)
    ensures Of(Without(rows, doc), other) == if other == doc then [] else Of(rows, other)
  {
    if rows != [] {
      var n := |rows| - 1;
      OfWithout(rows[..n], doc, other);
      var w := Without(rows[..n], doc);
      if rows[n].doc != doc {
        assert (w + [rows[n]])[..|w|] == w;
      } else {
        assert w + [] == w;
      }
    }
  }

  lemma OfPush(rows: seq<Row>, r: Row, doc: int)
    ensures Of(rows + [r], doc) == Of(rows, doc) + if r.doc == doc then [r] else []
  {
    assert (rows + [r])[..|rows|] == rows;
  }

  lemma {:induction false} OfNew(doc: int, chunks: seq<Text>, vectors: seq<Vector>, n: nat, other: int)
    requires n <= |chunks| && n <= |vectors|
    ensures Of(NewRows(doc, chunks, vectors, n), other)
            == if other == doc then NewRows(doc, chunks, vectors, n) else []
  {
    if n > 0 {
      OfNew(doc, chunks, vectors, n - 1, other);
      OfPush(NewRows(doc, chunks, vectors, n - 1), Row(chunks[n - 1], doc, n - 1, vectors[n - 1]), other);
    }
  }

  lemma RemovedRows(s: State, doc: int)
    requires Sound(s) && Whole(s)
    ensures Removed(s, doc).1 && Sound(Removed(s, doc).0)
    ensures Rows(Removed(s, doc).0.lists) == Without(Rows(s.lists), doc)
    ensures Removed(s, doc).0 == State(Removed(s, doc).0.lists, s.indexed - {doc}, s.disk)
  {
    NoneMissing(s.lists, doc, |s.lists.meta|);
    KeptParallel(s.lists, doc);
    IdsWithout(Rows(s.lists), doc);
    if doc !in s.indexed {
      WithoutStranger(Rows(s.lists), doc);
    }
  }

  // --------------------------------------------------------------------- main laws

  lemma {:induction false} LengthPrefix(vs: seq<Vector>, n: nat, d: nat)
    requires OfLength(vs, d) && n <= |vs|
    ensures OfLength(vs[..n], d)
  {
    if n < |vs| {
      LengthPrefix(vs[..|vs| - 1], n, d);
      assert vs[..|vs| - 1][..n] == vs[..n];
    } else {
      assert vs[..n] == vs;
    }
  }

  /** The index accepts the answer: its vectors have the length of those of the other
      documents. */
  predicate Accepts(s: State, doc: int, e: Embedding)
    requires Whole(s)
  {
    !Refused(e) && e.vectors != [] ==> Stacks(Removed(s, doc).0.lists.vectors, e.vectors[0])
  }

  /** All vectors of an array stack when the first does. */
  lemma FirstDecides(l: Lists, vectors: seq<Vector>, n: nat)
    requires SameDim(vectors) && n <= |vectors| && (n == 0 ==> vectors == [])
    ensures OfLength(vectors[..n], Dim(l, vectors)) <==> (vectors == [] || Stacks(l.vectors, vectors[0]))
  {
    if n > 0 {
      var d := |vectors[0]|;
      OneLength(vectors, d);
      LengthPrefix(vectors, n, d);
      OneLength(vectors[..n], d);
      OneLength(vectors[..n], Dim(l, vectors));
    }
  }

  /** The chunks that get a vector. */
  function Reach(text: Text, e: Embedding): (n: nat)
    requires e.Embedded?
    ensures n <= |Chunks(text)| && n <= |e.vectors| && (n == 0 ==> e.vectors == [])
  {
    Fewer(|Chunks(text)|, |e.vectors|)
  }

  lemma AddedExactly(s: State, text: Text, doc: int, e: Embedding)
    requires Whole(s) && !Refused(e)
    ensures var l, n := Removed(s, doc).0.lists, Reach(text, e);
            && (Add(l, doc, Chunks(text), e.vectors, n).ok <==> Accepts(s, doc, e))
            && (OfLength(e.vectors[..n], Dim(l, e.vectors)) <==> Accepts(s, doc, e))
  {
    var l, n := Removed(s, doc).0.lists, Reach(text, e);
    FirstDecides(l, e.vectors, n);
    StacksExactly(l, doc, Chunks(text), e.vectors, n);
  }

  /** The outcome of an insertion, told from the index and the answer. */
  lemma OutcomeExactly(s: State, text: Text, doc: int, e: Embedding)
    requires Sound(s) && Whole(s)
    ensures Inserted(s, text, doc, e).1
            == if Refused(e) then NotEmbedded else if Accepts(s, doc, e) then Indexed else BadShape
  {
    RemovedRows(s, doc);
    if !Refused(e) {
      AddedExactly(s, text, doc, e);
    }
  }

  /** What an insertion leaves: the entries of the other documents as they were, and,
      if it succeeded, the chunks of the text that have vectors, in order. */
  lemma InsertedRows(s: State, text: Text, doc: int, e: Embedding, other: int)
    requires Sound(s) && Whole(s) && Accepts(s, doc, e)
    ensures var t := Inserted(s, text, doc, e).0;
            && Parallel(t.lists)
            && Of(Rows(t.lists), other)
               == if other != doc then Of(Rows(s.lists), other)
                  else if Refused(e) then []
                  else NewRows(doc, Chunks(text), e.vectors, Reach(text, e))
  {
    var r := Removed(s, doc).0;
    RemovedRows(s, doc);
    OfWithout(Rows(s.lists), doc, other);
    if !Refused(e) {
      var n := Reach(text, e);
      AddedExactly(s, text, doc, e);
      AddRows(r.lists, doc, Chunks(text), e.vectors, n);
      OfJoin(Rows(r.lists), NewRows(doc, Chunks(text), e.vectors, n), other);
      OfNew(doc, Chunks(text), e.vectors, n, other);
    }
  }

  /** The index stays sound if and only if the embedding failed, or it gave at least one
      vector and they have the length of the vectors of the other documents, if there are
      any. */
  lemma SoundExactly(s: State, text: Text, doc: int, e: Embedding)
    requires Sound(s) && Whole(s)
    ensures Sound(Inserted(s, text, doc, e).0)
            <==> Refused(e)
                 || (e.vectors != [] && Stacks(Removed(s, doc).0.lists.vectors, e.vectors[0]))
  {
    var r := Removed(s, doc).0;
    var chunks := Chunks(text);
    RemovedRows(s, doc);
    if !Refused(e) {
      var n := Reach(text, e);
      AddedExactly(s, text, doc, e);
      if Accepts(s, doc, e) {
        AddRows(r.lists, doc, chunks, e.vectors, n);
        IdsJoin(Rows(r.lists), NewRows(doc, chunks, e.vectors, n));
        IdsNew(doc, chunks, e.vectors, n);
      } else {
        AddBroken(r.lists, doc, chunks, e.vectors, n);
      }
    }
  }

  /** An index with one entry of one number. */
  function OneEntry(text: Text, v: real): State {
    State(Lists([text], [Meta(1, 0)], Some([[v]])), {1}, Disk(None, None))
  }

  lemma OneEntrySound(text: Text, v: real)
    ensures Sound(OneEntry(text, v)) && Whole(OneEntry(text, v))
  {
    var l := OneEntry(text, v).lists;
    var row := Row(text, 1, 0, [v]);
    OneLength([[v]], 1);
    assert [[v]][0] == [v] && |[[v]][..0]| == 0;
    assert Parallel(l);
    ZipAt(l.chunks, l.meta, [[v]], 0);
    assert Rows(l) == [row];
    assert |[row][..0]| == 0;
    assert Ids([row]) == {1};
  }

  /** It is sound, and a vector of two numbers for another document, or no vector at all,
      breaks it. */
  lemma Breaks(text: Text, v: real, more: Text, a: real, b: real)
    ensures Sound(OneEntry(text, v)) && Whole(OneEntry(text, v))
    ensures Inserted(OneEntry(text, v), more, 2, Embedded([[a, b]])).1 == BadShape
    ensures !Sound(Inserted(OneEntry(text, v), more, 2, Embedded([[a, b]])).0)
    ensures Inserted(OneEntry(text, v), more, 2, Embedded([])).1 == Indexed
    ensures !Sound(Inserted(OneEntry(text, v), more, 2, Embedded([])).0)
  {
    var s := OneEntry(text, v);
    var one, none := Embedded([[a, b]]), Embedded([]);
    OneEntrySound(text, v);
    OneLength([[a, b]], 2);
    assert [[a, b]][0] == [a, b] && |[[a, b]][..0]| == 0;
    OutcomeExactly(s, more, 2, one);
    SoundExactly(s, more, 2, one);
    OutcomeExactly(s, more, 2, none);
    SoundExactly(s, more, 2, none);
  }

  lemma BrokenMissing(t: State, other: int)
    requires Whole(t) && other in t.indexed && t.lists.vectors.Some?
    requires |t.lists.meta| == |VectorsOf(t.lists.vectors)| + 1 && t.lists.meta[|t.lists.meta| - 1].doc != other
    ensures !Removed(t, other).1
  {}

  /** Where a vector of another length has left a chunk without a vector, indexing another
      known document again fails. */
  lemma BrokenRemoval(s: State, text: Text, doc: int, e: Embedding, next: Text, other: int, answer: Embedding)
    requires Sound(s) && Whole(s) && !Accepts(s, doc, e)
    requires other != doc && other in s.indexed
    ensures Inserted(Inserted(s, text, doc, e).0, next, other, answer).1 == BadIndex
  {
    RemovedRows(s, doc);
    AddedExactly(s, text, doc, e);
    AddBroken(Removed(s, doc).0.lists, doc, Chunks(text), e.vectors, Reach(text, e));
    BrokenMissing(Inserted(s, text, doc, e).0, other);
  }

  // ------------------------------------------------------------------------ files

  lemma {:induction false} DocsAreIds(chunks: seq<Text>, meta: seq<Meta>, vectors: seq<Vector>)
    requires |chunks| == |meta| == |vectors|
    ensures DocsOf(meta) == Ids(Zip(chunks, meta, vectors))
  {
    if meta != [] {
      var n := |meta| - 1;
      DocsAreIds(chunks[..n], meta[..n], vectors[..n]);
      var z := Zip(chunks[..n], meta[..n], vectors[..n]);
      assert Zip(chunks, meta, vectors)[..|z|] == z;
    }
  }

  /** A sound index with entries is read back as it was saved. */
  lemma SavedLoaded(s: State, d: Disk)
    requires Sound(s) && s.lists.chunks != []
    ensures Load(Save(s.lists, d)).lists == s.lists && Load(Save(s.lists, d)).indexed == s.indexed
  {
    DocsAreIds(s.lists.chunks, s.lists.meta, VectorsOf(s.lists.vectors));
  }

  /** An empty index is read back as it was saved exactly when there is no vector file
      from before: saving leaves the old one in place. */
  lemma EmptyLoaded(d: Disk)
    ensures Load(Save(Lists([], [], None), d)).lists == Lists([], [], None) <==> d.vectors.None?
    ensures d.vectors.Some? && d.vectors.value != [] ==> !Parallel(Load(Save(Lists([], [], None), d)).lists)
  {}

  // ------------------------------------------------------------------------- runs

  datatype Op = Op(text: Text, doc: int, answer: Embedding)

  /** An insertion, or a restart, which reads the files again. */
  datatype Event = Insert(op: Op) | Restart

  /** The service answers with a vector of length d for every chunk, or fails. */
  predicate Serves(op: Op, d: nat) {
    op.answer.Embedded? ==>
      |op.answer.vectors| >= |Chunks(op.text)| && OfLength(op.answer.vectors, d)
  }

  predicate AllServe(events: seq<Event>, d: nat) {
    events == []
    || (var n := |events| - 1;
        AllServe(events[..n], d) && (events[n].Insert? ==> Serves(events[n].op, d)))
  }

  /** A sound index with vectors of length d. */
  predicate Good(s: State, d: nat) {
    Sound(s) && Whole(s) && OfLength(VectorsOf(s.lists.vectors), d)
  }

  /** And its files read back as such an index, too. */
  predicate Stored(s: State, d: nat) {
    Good(s, d) && Good(Load(s.disk), d)
  }

  /** Answers of the one length are accepted. */
  lemma ServedAccepted(s: State, op: Op, d: nat)
    requires Good(s, d) && Serves(op, d)
    ensures Accepts(s, op.doc, op.answer) && (Refused(op.answer) <==> op.answer.Failed?)
    ensures op.answer.Embedded? ==> op.answer.vectors != []
  {
    if op.answer.Embedded? {
      var k := VectorsOf(Removed(s, op.doc).0.lists.vectors);
      OneLength(op.answer.vectors, d);
      KeptLength(s.lists, op.doc, |s.lists.chunks|, d);
      if k != [] {
        OfLengthAt(k, d, 0);
      }
    }
  }

  lemma {:induction false} AddLength(l: Lists, doc: int, chunks: seq<Text>, vectors: seq<Vector>, n: nat, d: nat)
    requires n <= |chunks| && n <= |vectors| && OfLength(VectorsOf(l.vectors), d) && OfLength(vectors, d)
    ensures OfLength(VectorsOf(Add(l, doc, chunks, vectors, n).lists.vectors), d)
  {
    if n > 0 {
      AddLength(l, doc, chunks, vectors, n - 1, d);
      OfLengthAt(vectors, d, n - 1);
      OfLengthPush(VectorsOf(Add(l, doc, chunks, vectors, n - 1).lists.vectors), vectors[n - 1], d);
    }
  }

  lemma ServedGood(s: State, op: Op, d: nat)
    requires Good(s, d) && Serves(op, d)
    ensures Good(Inserted(s, op.text, op.doc, op.answer).0, d)
  {
    ServedAccepted(s, op, d);
    SoundExactly(s, op.text, op.doc, op.answer);
    OutcomeExactly(s, op.text, op.doc, op.answer);
    RemovedRows(s, op.doc);
    KeptLength(s.lists, op.doc, |s.lists.chunks|, d);
    if op.answer.Embedded? {
      var n := Reach(op.text, op.answer);
      AddLength(Removed(s, op.doc).0.lists, op.doc, Chunks(op.text), op.answer.vectors, n, d);
    }
  }

  lemma {:induction false} AddSome(l: Lists, doc: int, chunks: seq<Text>, vectors: seq<Vector>, n: nat)
    requires n <= |chunks| && n <= |vectors|
    ensures |Add(l, doc, chunks, vectors, n).lists.chunks| >= |l.chunks| + (if n > 0 then 1 else 0)
  {
    if n > 0 {
      AddSome(l, doc, chunks, vectors, n - 1);
    }
  }

  /** A served insertion that fails leaves the files alone; one that succeeds makes them
      read back as the index. */
  lemma ServedDisk(s: State, op: Op, d: nat)
    requires Good(s, d) && Serves(op, d)
    ensures var t := Inserted(s, op.text, op.doc, op.answer).0;
            if op.answer.Failed? then t.disk == s.disk
            else Load(t.disk).lists == t.lists && Load(t.disk).indexed == t.indexed
  {
    ServedAccepted(s, op, d);
    OutcomeExactly(s, op.text, op.doc, op.answer);
    RemovedRows(s, op.doc);
    if op.answer.Embedded? {
      var r := Removed(s, op.doc).0;
      ServedGood(s, op, d);
      AddSome(r.lists, op.doc, Chunks(op.text), op.answer.vectors, Reach(op.text, op.answer));
      SavedLoaded(Inserted(s, op.text, op.doc, op.answer).0, r.disk);
    }
  }

  lemma ServedStored(s: State, op: Op, d: nat)
    requires Stored(s, d) && Serves(op, d)
    ensures Stored(Inserted(s, op.text, op.doc, op.answer).0, d)
  {
    ServedGood(s, op, d);
    ServedDisk(s, op, d);
  }

  /** The index after a run. */
  function Run(s: State, events: seq<Event>, d: nat): (t: State)
    requires Stored(s, d) && AllServe(events, d)
    ensures Stored(t, d)
  {
    if events == [] then s
    else
      var before := Run(s, events[..|events| - 1], d);
      match events[|events| - 1]
      case Restart => Load(before.disk)
      case Insert(op) =>
        ServedStored(before, op, d);
        Inserted(before, op.text, op.doc, op.answer).0
  }

  /** The run up to its last successful insertion. */
  function UpToSaved(events: seq<Event>): (r: seq<Event>)
    ensures r <= events
  {
    if events == [] then []
    else
      var last := events[|events| - 1];
      if last.Insert? && last.op.answer.Embedded? then events else UpToSaved(events[..|events| - 1])
  }

  lemma {:induction false} ServePrefix(events: seq<Event>, d: nat, n: nat)
    requires AllServe(events, d) && n <= |events|
    ensures AllServe(events[..n], d)
  {
    if n < |events| {
      ServePrefix(events[..|events| - 1], d, n);
      assert events[..|events| - 1][..n] == events[..n];
    } else {
      assert events[..n] == events;
    }
  }

  lemma SavedServes(events: seq<Event>, d: nat)
    requires AllServe(events, d)
    ensures AllServe(UpToSaved(events), d)
  {
    ServePrefix(events, d, |UpToSaved(events)|);
    assert UpToSaved(events) == events[..|UpToSaved(events)|];
  }

  /** What a restart brings back, whenever it comes: the index as it was after the last
      successful insertion. Removals by failed insertions since then are undone. */
  lemma {:induction false} RestartShowsSaved(s: State, events: seq<Event>, d: nat)
    requires Stored(s, d) && AllServe(events, d) && s == Load(s.disk)
    ensures AllServe(UpToSaved(events), d)
    ensures var saved := Run(s, UpToSaved(events), d);
            && Load(Run(s, events, d).disk).lists == saved.lists
            && Load(Run(s, events, d).disk).indexed == saved.indexed
  {
    SavedServes(events, d);
    if events != [] {
      var init, last := events[..|events| - 1], events[|events| - 1];
      RestartShowsSaved(s, init, d);
      if last.Insert? {
        ServedDisk(Run(s, init, d), last.op, d);
      }
    }
  }

  /** One entry for each chunk of the text that got a vector. */
  function Entries(op: Op): seq<Row>
    requires op.answer.Embedded?
  {
    NewRows(op.doc, Chunks(op.text), op.answer.vectors, Reach(op.text, op.answer))
  }

  lemma {:induction false} EntryAt(doc: int, chunks: seq<Text>, vectors: seq<Vector>, n: nat, k: nat)
    requires k < n <= |chunks| && n <= |vectors|
    ensures |NewRows(doc, chunks, vectors, n)| == n
    ensures NewRows(doc, chunks, vectors, n)[k] == Row(chunks[k], doc, k, vectors[k])
  {
    if k < n - 1 {
      EntryAt(doc, chunks, vectors, n - 1, k);
    } else if n > 1 {
      EntryAt(doc, chunks, vectors, n - 1, 0);
    }
  }

  /** The entries of a served text are all its chunks, numbered from 0, each with its
      vector. */
  lemma ServedEntries(op: Op, d: nat, k: nat)
    requires op.answer.Embedded? && Serves(op, d) && k < |Chunks(op.text)|
    ensures |Entries(op)| == |Chunks(op.text)|
    ensures Entries(op)[k] == Row(Chunks(op.text)[k], op.doc, k, op.answer.vectors[k])
  {
    EntryAt(op.doc, Chunks(op.text), op.answer.vectors, |Chunks(op.text)|, k);
  }

  /** The entries of a document after a run: those of its latest text, none when the
      service failed for it, those from before when it was not touched; a restart goes
      back to the last successful insertion of any document. */
  function Latest(before: seq<Row>, events: seq<Event>, doc: int): seq<Row>
    decreases |events|
  {
    if events == [] then before
    else
      var init := events[..|events| - 1];
      match events[|events| - 1]
      case Restart => Latest(before, UpToSaved(init), doc)
      case Insert(op) =>
        if op.doc != doc then Latest(before, init, doc)
        else if op.answer.Failed? then []
        else Entries(op)
  }

  /** Over any run of insertions, insertions again, failed embeddings and restarts, the
      index is a map from documents to the chunks of their latest text. */
  lemma {:induction false} RunIsMap(s: State, events: seq<Event>, d: nat, doc: int)
    requires Stored(s, d) && AllServe(events, d) && s == Load(s.disk)
    ensures Of(Rows(Run(s, events, d).lists), doc) == Latest(Of(Rows(s.lists), doc), events, doc)
    decreases |events|
  {
    if events != [] {
      var init := events[..|events| - 1];
      var before := Run(s, init, d);
      match events[|events| - 1] {
        case Restart =>
          RestartShowsSaved(s, init, d);
          RunIsMap(s, UpToSaved(init), d, doc);
        case Insert(op) =>
          RunIsMap(s, init, d, doc);
          ServedAccepted(before, op, d);
          InsertedRows(before, op.text, op.doc, op.answer, doc);
      }
    }
  }
}
