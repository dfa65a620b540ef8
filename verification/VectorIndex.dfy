/** The vector index of a workspace (SimpleVectorBackend in pawlia/rag_backend.py):
    parallel lists of chunks, their documents and their vectors. */
module VectorIndex {
  import opened Texts
  import opened Errors

  type Vector = seq<real>

  datatype Meta = Meta(doc: int, index: nat)

  /** The answer of the embedding service: vectors, or an error. */
  datatype Embedding = Embedded(vectors: seq<Vector>) | Failed

  datatype Outcome = Indexed | NotEmbedded | BadShape | BadIndex

  /** One entry of the index. */
  datatype Row = Row(chunk: Text, doc: int, index: nat, vector: Vector)

  // ------------------------------------------------------------- the three lists

  datatype Lists = Lists(chunks: seq<Text>, meta: seq<Meta>, vectors: Option<seq<Vector>>)

  function VectorsOf(v: Option<seq<Vector>>): seq<Vector> {
    if v.Some? then v.value else []
  }

  /** The lists match, position by position, and there are vectors exactly when there
      are chunks, all of one length. */
  predicate Parallel(l: Lists) {
    && |l.chunks| == |l.meta| == |VectorsOf(l.vectors)|
    && (l.vectors.Some? ==> l.vectors.value != [] && SameDim(l.vectors.value))
  }

  predicate SameDim(vs: seq<Vector>) {
    vs == [] || (|vs[|vs| - 1]| == |vs[0]| && SameDim(vs[..|vs| - 1]))
  }

  function Zip(chunks: seq<Text>, meta: seq<Meta>, vectors: seq<Vector>): (r: seq<Row>)
    requires |chunks| == |meta| == |vectors|
    ensures |r| == |chunks|
  {
    if chunks == [] then []
    else
      var n := |chunks| - 1;
      Zip(chunks[..n], meta[..n], vectors[..n]) + [Row(chunks[n], meta[n].doc, meta[n].index, vectors[n])]
  }

  function Rows(l: Lists): seq<Row>
    requires Parallel(l)
  {
    Zip(l.chunks, l.meta, VectorsOf(l.vectors))
  }

  function Ids(rows: seq<Row>): set<int> {
    if rows == [] then {} else Ids(rows[..|rows| - 1]) + {rows[|rows| - 1].doc}
  }

  function DocsOf(meta: seq<Meta>): set<int> {
    if meta == [] then {} else DocsOf(meta[..|meta| - 1]) + {meta[|meta| - 1].doc}
  }

  // -------------------------------------------------------------------- removing

  function Without(rows: seq<Row>, doc: int): seq<Row> {
    if rows == [] then []
    else
      var r := rows[|rows| - 1];
      Without(rows[..|rows| - 1], doc) + if r.doc != doc then [r] else []
  }

  function Of(rows: seq<Row>, doc: int): seq<Row> {
    if rows == [] then []
    else
      var r := rows[|rows| - 1];
      Of(rows[..|rows| - 1], doc) + if r.doc == doc then [r] else []
  }

  /** The lists without the entries of a document, of the first n entries; an entry
      without a vector has none to keep. */
  function Kept(l: Lists, doc: int, n: nat): Lists
    requires n <= |l.chunks| == |l.meta|
  {
    if n == 0 then Lists([], [], None)
    else
      var k := Kept(l, doc, n - 1);
      if l.meta[n - 1].doc == doc then k
      else
        Lists(k.chunks + [l.chunks[n - 1]], k.meta + [l.meta[n - 1]],
              if n <= |VectorsOf(l.vectors)| then Some(VectorsOf(k.vectors) + [VectorsOf(l.vectors)[n - 1]])
              else k.vectors)
  }

  /** An entry that is to be kept has no vector: selecting it fails. */
  predicate Missing(l: Lists, doc: int, n: nat)
    requires n <= |l.meta|
  {
    n > 0 && (Missing(l, doc, n - 1) || (l.meta[n - 1].doc != doc && n > |VectorsOf(l.vectors)|))
  }

  lemma {:induction false} NoneMissing(l: Lists, doc: int, n: nat)
    requires n <= |l.meta| && n <= |VectorsOf(l.vectors)|
    ensures !Missing(l, doc, n)
  {
    if n > 0 {
      NoneMissing(l, doc, n - 1);
    }
  }

  lemma {:induction false} KeptShape(l: Lists, doc: int, n: nat)
    requires Parallel(l) && n <= |l.chunks|
    ensures var k := Kept(l, doc, n);
            && |k.chunks| == |k.meta| == |VectorsOf(k.vectors)| <= n
            && (k.vectors.Some? ==> k.vectors.value != [])
  {
    if n > 0 {
      KeptShape(l, doc, n - 1);
    }
  }

  lemma WithoutPush(rows: seq<Row>, r: Row, doc: int)
    ensures Without(rows + [r], doc) == Without(rows, doc) + if r.doc != doc then [r] else []
  {
    assert (rows + [r])[..|rows|] == rows;
  }

  lemma FirstRows(l: Lists, n: nat)
    requires Parallel(l) && 0 < n <= |l.chunks|
    ensures Rows(l)[..n] == Rows(l)[..n - 1]
            + [Row(l.chunks[n - 1], l.meta[n - 1].doc, l.meta[n - 1].index, VectorsOf(l.vectors)[n - 1])]
  {
    ZipAt(l.chunks, l.meta, VectorsOf(l.vectors), n - 1);
  }

  lemma {:induction false} KeptRows(l: Lists, doc: int, n: nat)
    requires Parallel(l) && n <= |l.chunks|
    ensures var k := Kept(l, doc, n);
            && |k.chunks| == |k.meta| == |VectorsOf(k.vectors)|
            && Zip(k.chunks, k.meta, VectorsOf(k.vectors)) == Without(Rows(l)[..n], doc)
  {
    KeptShape(l, doc, n);
    if n == 0 {
      assert Rows(l)[..0] == [];
    } else {
      var c, m, v := l.chunks[n - 1], l.meta[n - 1], VectorsOf(l.vectors)[n - 1];
      KeptRows(l, doc, n - 1);
      FirstRows(l, n);
      WithoutPush(Rows(l)[..n - 1], Row(c, m.doc, m.index, v), doc);
      var k := Kept(l, doc, n - 1);
      ZipPush(k.chunks, k.meta, VectorsOf(k.vectors), c, m, v);
    }
  }

  lemma {:induction false} ZipAt(chunks: seq<Text>, meta: seq<Meta>, vectors: seq<Vector>, i: nat)
    requires |chunks| == |meta| == |vectors| && i < |chunks|
    ensures Zip(chunks, meta, vectors)[i] == Row(chunks[i], meta[i].doc, meta[i].index, vectors[i])
  {
    var n := |chunks| - 1;
    if i < n {
      ZipAt(chunks[..n], meta[..n], vectors[..n], i);
    }
  }

  lemma ZipPush(chunks: seq<Text>, meta: seq<Meta>, vectors: seq<Vector>, c: Text, m: Meta, v: Vector)
    requires |chunks| == |meta| == |vectors|
    ensures Zip(chunks + [c], meta + [m], vectors + [v]) == Zip(chunks, meta, vectors) + [Row(c, m.doc, m.index, v)]
  {
    var n := |chunks|;
    assert (chunks + [c])[..n] == chunks && (meta + [m])[..n] == meta && (vectors + [v])[..n] == vectors;
  }

  // -------------------------------------------------------------------- dimensions

  lemma SameDimPush(vs: seq<Vector>, v: Vector)
    requires SameDim(vs) && (vs != [] ==> |v| == |vs[0]|)
    ensures SameDim(vs + [v])
  {
    assert (vs + [v])[..|vs|] == vs;
  }

  /** All vectors have this length. */
  predicate OfLength(vs: seq<Vector>, d: nat) {
    vs == [] || (|vs[|vs| - 1]| == d && OfLength(vs[..|vs| - 1], d))
  }

  lemma {:induction false} OneLength(vs: seq<Vector>, d: nat)
    requires vs != []
    ensures OfLength(vs, d) <==> SameDim(vs) && |vs[0]| == d
  {
    if |vs| > 1 {
      OneLength(vs[..|vs| - 1], d);
    } else {
      assert vs[..0] == [];
    }
  }

  lemma {:induction false} OfLengthAt(vs: seq<Vector>, d: nat, i: nat)
    requires OfLength(vs, d) && i < |vs|
    ensures |vs[i]| == d
  {
    if i < |vs| - 1 {
      OfLengthAt(vs[..|vs| - 1], d, i);
    }
  }

  lemma OfLengthPush(vs: seq<Vector>, v: Vector, d: nat)
    ensures OfLength(vs + [v], d) <==> OfLength(vs, d) && |v| == d
  {
    assert (vs + [v])[..|vs|] == vs;
  }

  lemma {:induction false} KeptLength(l: Lists, doc: int, n: nat, d: nat)
    requires Parallel(l) && n <= |l.chunks| && OfLength(VectorsOf(l.vectors), d)
    ensures OfLength(VectorsOf(Kept(l, doc, n).vectors), d)
  {
    if n > 0 {
      KeptLength(l, doc, n - 1, d);
      OfLengthAt(VectorsOf(l.vectors), d, n - 1);
      OfLengthPush(VectorsOf(Kept(l, doc, n - 1).vectors), VectorsOf(l.vectors)[n - 1], d);
    }
  }

  lemma KeptDim(l: Lists, doc: int)
    requires Parallel(l)
    ensures SameDim(VectorsOf(Kept(l, doc, |l.chunks|).vectors))
    ensures var k := VectorsOf(Kept(l, doc, |l.chunks|).vectors); k != [] ==> |k[0]| == |VectorsOf(l.vectors)[0]|
  {
    if l.chunks != [] {
      var d := |VectorsOf(l.vectors)[0]|;
      OneLength(VectorsOf(l.vectors), d);
      KeptLength(l, doc, |l.chunks|, d);
      var k := VectorsOf(Kept(l, doc, |l.chunks|).vectors);
      if k != [] {
        OneLength(k, d);
      }
    }
  }

  lemma KeptParallel(l: Lists, doc: int)
    requires Parallel(l)
    ensures var k := Kept(l, doc, |l.chunks|); Parallel(k) && Rows(k) == Without(Rows(l), doc)
  {
    KeptShape(l, doc, |l.chunks|);
    KeptRows(l, doc, |l.chunks|);
    KeptDim(l, doc);
    assert Rows(l)[..|l.chunks|] == Rows(l);
  }

  // ---------------------------------------------------------------------- adding

  /** `vstack` works: there is nothing yet, or the lengths agree. */
  predicate Stacks(vectors: Option<seq<Vector>>, v: Vector) {
    VectorsOf(vectors) != [] ==> |v| == |VectorsOf(vectors)[0]|
  }

  /** The lists after n chunks were added; a vector of another length stops it, with its
      chunk already in. */
  datatype Added = Added(lists: Lists, ok: bool)

  function Add(l: Lists, doc: int, chunks: seq<Text>, vectors: seq<Vector>, n: nat): Added
    requires n <= |chunks| && n <= |vectors|
  {
    if n == 0 then Added(l, true)
    else
      var a := Add(l, doc, chunks, vectors, n - 1);
      if !a.ok then a
      else
        var c, m := a.lists.chunks + [chunks[n - 1]], a.lists.meta + [Meta(doc, n - 1)];
        if Stacks(a.lists.vectors, vectors[n - 1]) then
          Added(Lists(c, m, Some(VectorsOf(a.lists.vectors) + [vectors[n - 1]])), true)
        else Added(Lists(c, m, a.lists.vectors), false)
  }

  function Fewer(a: nat, b: nat): nat {
    if a <= b then a else b
  }

  function NewRows(doc: int, chunks: seq<Text>, vectors: seq<Vector>, n: nat): seq<Row>
    requires n <= |chunks| && n <= |vectors|
  {
    if n == 0 then [] else NewRows(doc, chunks, vectors, n - 1) + [Row(chunks[n - 1], doc, n - 1, vectors[n - 1])]
  }

  lemma AddOne(l: Lists, c: Text, m: Meta, v: Vector)
    requires Parallel(l) && Stacks(l.vectors, v)
    ensures var a := Lists(l.chunks + [c], l.meta + [m], Some(VectorsOf(l.vectors) + [v]));
            Parallel(a) && Rows(a) == Rows(l) + [Row(c, m.doc, m.index, v)]
  {
    SameDimPush(VectorsOf(l.vectors), v);
    ZipPush(l.chunks, l.meta, VectorsOf(l.vectors), c, m, v);
  }

  /** One more chunk whose vector stacks. */
  lemma AddStep(l: Lists, doc: int, chunks: seq<Text>, vectors: seq<Vector>, n: nat)
    requires 0 < n <= |chunks| && n <= |vectors| && Add(l, doc, chunks, vectors, n).ok
    ensures var a := Add(l, doc, chunks, vectors, n - 1);
            && a.ok && Stacks(a.lists.vectors, vectors[n - 1])
            && Add(l, doc, chunks, vectors, n).lists
               == Lists(a.lists.chunks + [chunks[n - 1]], a.lists.meta + [Meta(doc, n - 1)],
                        Some(VectorsOf(a.lists.vectors) + [vectors[n - 1]]))
  {}

  /** As long as the vectors stack, the lists stay in step and grow by the new rows. */
  lemma {:induction false} AddRows(l: Lists, doc: int, chunks: seq<Text>, vectors: seq<Vector>, n: nat)
    requires Parallel(l) && n <= |chunks| && n <= |vectors| && Add(l, doc, chunks, vectors, n).ok
    ensures var a := Add(l, doc, chunks, vectors, n).lists;
            Parallel(a) && Rows(a) == Rows(l) + NewRows(doc, chunks, vectors, n)
  {
    if n == 0 {
      assert Rows(l) + [] == Rows(l);
    } else {
      AddStep(l, doc, chunks, vectors, n);
      AddRows(l, doc, chunks, vectors, n - 1);
      AddOne(Add(l, doc, chunks, vectors, n - 1).lists, chunks[n - 1], Meta(doc, n - 1), vectors[n - 1]);
      Shift(Rows(l), NewRows(doc, chunks, vectors, n - 1), Row(chunks[n - 1], doc, n - 1, vectors[n - 1]));
    }
  }

  lemma Shift(x: seq<Row>, y: seq<Row>, r: Row)
    ensures (x + y) + [r] == x + (y + [r])
  {}

  /** The length that new vectors must have: that of the old ones, or of the first. */
  function Dim(l: Lists, vectors: seq<Vector>): nat {
    if VectorsOf(l.vectors) != [] then |VectorsOf(l.vectors)[0]|
    else if vectors != [] then |vectors[0]|
    else 0
  }

  lemma {:induction false} AddFirst(l: Lists, doc: int, chunks: seq<Text>, vectors: seq<Vector>, n: nat)
    requires n <= |chunks| && n <= |vectors| && Add(l, doc, chunks, vectors, n).ok
    ensures var vs := VectorsOf(Add(l, doc, chunks, vectors, n).lists.vectors);
            && (vs != [] ==> |vs[0]| == Dim(l, vectors))
            && (vs == [] <==> n == 0 && VectorsOf(l.vectors) == [])
  {
    if n > 0 {
      AddFirst(l, doc, chunks, vectors, n - 1);
    }
  }

  /** The vectors stack if and only if those used have the length that the index has, or,
      when it is empty, the length of the first. */
  lemma {:induction false} StacksExactly(l: Lists, doc: int, chunks: seq<Text>, vectors: seq<Vector>, n: nat)
    requires n <= |chunks| && n <= |vectors|
    ensures Add(l, doc, chunks, vectors, n).ok <==> OfLength(vectors[..n], Dim(l, vectors))
  {
    if n > 0 {
      StacksExactly(l, doc, chunks, vectors, n - 1);
      assert vectors[..n] == vectors[..n - 1] + [vectors[n - 1]];
      OfLengthPush(vectors[..n - 1], vectors[n - 1], Dim(l, vectors));
      if Add(l, doc, chunks, vectors, n - 1).ok {
        AddFirst(l, doc, chunks, vectors, n - 1);
      }
    }
  }

  lemma {:induction false} StoppedLists(l: Lists, doc: int, chunks: seq<Text>, vectors: seq<Vector>, n: nat)
    requires Parallel(l) && n <= |chunks| && n <= |vectors| && !Add(l, doc, chunks, vectors, n).ok
    ensures var a := Add(l, doc, chunks, vectors, n).lists;
            && |a.chunks| == |a.meta| == |VectorsOf(a.vectors)| + 1 && a.meta[|a.meta| - 1].doc == doc
            && a.vectors.Some?
  {
    var before := Add(l, doc, chunks, vectors, n - 1);
    if before.ok {
      AddRows(l, doc, chunks, vectors, n - 1);
    } else {
      StoppedLists(l, doc, chunks, vectors, n - 1);
    }
  }

  /** A vector of another length among those used leaves a chunk of the document without
      a vector. */
  lemma AddBroken(l: Lists, doc: int, chunks: seq<Text>, vectors: seq<Vector>, n: nat)
    requires Parallel(l) && n <= |chunks| && n <= |vectors| && !OfLength(vectors[..n], Dim(l, vectors))
    ensures var a := Add(l, doc, chunks, vectors, n).lists;
            && |a.chunks| == |a.meta| == |VectorsOf(a.vectors)| + 1 && a.meta[|a.meta| - 1].doc == doc
            && a.vectors.Some? && !Parallel(a)
  {
    StacksExactly(l, doc, chunks, vectors, n);
    StoppedLists(l, doc, chunks, vectors, n);
  }
}
