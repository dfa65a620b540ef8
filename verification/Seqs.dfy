/** Concatenation of sequences, and sequences with some elements left out. */
module Seqs {

  lemma Assoc<T>(a: seq<T>, b: seq<T>, c: seq<T>)
    ensures (a + b) + c == a + (b + c)
  {}

  /** `a` is `b` with some elements left out. */
  predicate Sublist<T(==)>(a: seq<T>, b: seq<T>) {
    if a == [] then true
    else if b == [] then false
    else
      || (a[|a| - 1] == b[|b| - 1] && Sublist(a[..|a| - 1], b[..|b| - 1]))
      || Sublist(a, b[..|b| - 1])
  }

  lemma {:induction false} SublistBoth<T>(a: seq<T>, b: seq<T>, c: seq<T>)
    requires Sublist(a, b)
    ensures Sublist(a + c, b + c)
  {
    if c == [] {
      assert a + c == a && b + c == b;
    } else {
      var init := c[..|c| - 1];
      SublistBoth(a, b, init);
      assert (a + c)[..|a + c| - 1] == a + init && (b + c)[..|b + c| - 1] == b + init;
    }
  }

  lemma {:induction false} SublistGrow<T>(a: seq<T>, b: seq<T>, c: seq<T>)
    requires Sublist(a, b) && b <= c
    ensures Sublist(a, c)
  {
    if b != c {
      assert b <= c[..|c| - 1];
      SublistGrow(a, b, c[..|c| - 1]);
    }
  }

  lemma {:induction false} SublistInit<T>(a: seq<T>, b: seq<T>)
    requires a != [] && Sublist(a, b)
    ensures Sublist(a[..|a| - 1], b)
  {
    var init := b[..|b| - 1];
    if Sublist(a, init) {
      SublistInit(a, init);
    }
    SublistGrow(a[..|a| - 1], init, b);
  }

  lemma {:induction false} SublistPrefix<T>(a: seq<T>, c: seq<T>, b: seq<T>)
    requires Sublist(a + c, b)
    ensures Sublist(a, b)
  {
    if c == [] {
      assert a + c == a;
    } else {
      SublistInit(a + c, b);
      assert (a + c)[..|a + c| - 1] == a + c[..|c| - 1];
      SublistPrefix(a, c[..|c| - 1], b);
    }
  }

  /** With one element more in front of the longer one, or of both. */
  lemma {:induction false} SublistFront<T>(a: seq<T>, x: T, b: seq<T>)
    requires Sublist(a, b)
    ensures Sublist(a, [x] + b) && Sublist([x] + a, [x] + b)
  {
    if a == [] {
      assert [x] + a == [x];
      OnlyFirst(x, b);
    } else {
      var ai, bi := a[..|a| - 1], b[..|b| - 1];
      assert ([x] + a)[..|a|] == [x] + ai && ([x] + b)[..|b|] == [x] + bi;
      if a[|a| - 1] == b[|b| - 1] && Sublist(ai, bi) {
        SublistFront(ai, x, bi);
      } else {
        SublistFront(a, x, bi);
      }
    }
  }

  lemma {:induction false} OnlyFirst<T>(x: T, b: seq<T>)
    ensures Sublist([x], [x] + b)
  {
    if b == [] {
      assert [x] + b == [x] && |[x][..0]| == 0;
    } else {
      assert ([x] + b)[..|b|] == [x] + b[..|b| - 1];
      OnlyFirst(x, b[..|b| - 1]);
    }
  }
}
