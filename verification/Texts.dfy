/** Python text as a sequence of code points.

    A Python string may hold lone surrogates (U+D800 to U+DFFF), which Dafny's
    own characters exclude, so message contents are sequences of code points. */
module Texts {

  type Code = int
  type Text = seq<Code>

  const NL: Code := 10
  const REPLACEMENT: Code := 0xFFFD

  function Lit(s: string): (t: Text)
    ensures |t| == |s|
  {
    seq(|s|, i requires 0 <= i < |s| => s[i] as int)
  }

  predicate IsSurrogate(c: Code) {
    0xD800 <= c <= 0xDFFF
  }

  /** `str.isspace` for one code point. */
  predicate IsSpace(c: Code) {
    || 9 <= c <= 13
    || 28 <= c <= 32
    || c in {0x85, 0xA0, 0x1680, 0x2028, 0x2029, 0x202F, 0x205F, 0x3000}
    || 0x2000 <= c <= 0x200A
  }

  function TrimRight(t: Text): (r: Text)
    ensures r <= t
    ensures r == [] || !IsSpace(r[|r| - 1])
  {
    if t != [] && IsSpace(t[|t| - 1]) then TrimRight(t[..|t| - 1]) else t
  }

  function TrimLeft(t: Text): (r: Text)
    ensures |r| <= |t|
  {
    if t != [] && IsSpace(t[0]) then TrimLeft(t[1..]) else t
  }

  function Trim(t: Text): (r: Text)
    ensures |r| <= |t|
  {
    TrimRight(TrimLeft(t))
  }

  function Take(t: Text, n: nat): (r: Text)
    ensures |r| == if |t| <= n then |t| else n
  {
    if |t| <= n then t else t[..n]
  }

  /** The text up to, and without, the first line break. */
  function FirstLine(t: Text): (r: Text)
    ensures r <= t
    ensures NL !in r
  {
    if t == [] || t[0] == NL then [] else [t[0]] + FirstLine(t[1..])
  }

  function CountNewlines(t: Text): (n: nat)
    ensures n <= |t|
  {
    if t == [] then 0 else (if t[0] == NL then 1 else 0) + CountNewlines(t[1..])
  }

  /** `text.replace("\n", " ")` */
  function Flatten(t: Text): (r: Text)
    ensures |r| == |t|
  {
    seq(|t|, i requires 0 <= i < |t| => if t[i] == NL then 32 else t[i])
  }

  /** The decimal numeral of a natural number. */
  function Decimal(n: nat): (t: Text)
    ensures t != []
    ensures forall c :: c in t ==> 48 <= c <= 57
  {
    if n < 10 then [48 + n] else Decimal(n / 10) + [48 + n % 10]
  }

  function Pow10(d: nat): (p: nat)
    ensures p >= 1
  {
    if d == 0 then 1 else 10 * Pow10(d - 1)
  }

  /** A number below 10^d has at most d digits. */
  lemma {:induction false} DecimalLength(n: nat, d: nat)
    requires d >= 1 && n < Pow10(d)
    ensures |Decimal(n)| <= d
  {
    if n >= 10 {
      assert Pow10(1) == 10 * Pow10(0);
      DecimalLength(n / 10, d - 1);
    }
  }

  /** Numerals are read back digit by digit, so equal numerals mean equal numbers. */
  lemma {:induction false} DecimalInjective(a: nat, b: nat)
    requires Decimal(a) == Decimal(b)
    ensures a == b
  {
    var x, y := Decimal(a), Decimal(b);
    if a >= 10 && b >= 10 {
      assert x[..|x| - 1] == Decimal(a / 10);
      assert y[..|y| - 1] == Decimal(b / 10);
      DecimalInjective(a / 10, b / 10);
    }
  }

  function Join(lines: seq<Text>): Text {
    if lines == [] then []
    else if |lines| == 1 then lines[0]
    else lines[0] + [NL] + Join(lines[1..])
  }

  /** A text without its white space. */
  function Ink(t: Text): (r: Text) {
    if t == [] then [] else Ink(t[..|t| - 1]) + (if IsSpace(t[|t| - 1]) then [] else [t[|t| - 1]])
  }

  lemma {:induction false} InkConcat(a: Text, b: Text)
    ensures Ink(a + b) == Ink(a) + Ink(b)
  {
    if b == [] {
      assert a + b == a;
    } else {
      assert (a + b)[..|a + b| - 1] == a + b[..|b| - 1];
      InkConcat(a, b[..|b| - 1]);
    }
  }

  lemma {:induction false} InkTrimRight(t: Text)
    ensures Ink(TrimRight(t)) == Ink(t)
  {
    if t != [] && IsSpace(t[|t| - 1]) {
      InkTrimRight(t[..|t| - 1]);
    }
  }

  lemma {:induction false} InkTrimLeft(t: Text)
    ensures Ink(TrimLeft(t)) == Ink(t)
  {
    if t != [] && IsSpace(t[0]) {
      InkTrimLeft(t[1..]);
      InkConcat([t[0]], t[1..]);
      assert t == [t[0]] + t[1..];
      assert Ink([t[0]]) == Ink([]) + [];
    }
  }

  lemma InkTrim(t: Text)
    ensures Ink(Trim(t)) == Ink(t)
  {
    InkTrimLeft(t);
    InkTrimRight(TrimLeft(t));
  }

  lemma {:induction false} FirstLineOf(x: Text, y: Text)
    requires NL !in x && (y == [] || y[0] == NL)
    ensures FirstLine(x + y) == x
  {
    if x == [] {
      assert x + y == y;
    } else {
      assert (x + y)[1..] == x[1..] + y;
      FirstLineOf(x[1..], y);
    }
  }

  lemma {:induction false} TrimLeftOf(x: Text, y: Text)
    ensures TrimLeft(x + y) == if TrimLeft(x) == [] then TrimLeft(y) else TrimLeft(x) + y
  {
    if x == [] {
      assert x + y == y;
    } else {
      assert (x + y)[1..] == x[1..] + y;
      TrimLeftOf(x[1..], y);
    }
  }
}
