/** Byte strings, the ASCII whitespace set, and decimal numerals as the streams print and read them. */
module ByteStrings {

  newtype byte = x: int | 0 <= x < 256

  type Bytes = seq<byte>

  const SPACE: byte := 0x20
  const NEWLINE: byte := 0x0A
  const RETURN: byte := 0x0D

  /** Space, tab, newline, vertical tab, form feed, carriage return: the set both tokenizers
      spell out and the set the "C" locale gives to the stream extractors. */
  predicate IsSpace(c: byte) {
    c == 0x20 || 0x09 <= c <= 0x0D
  }

  predicate IsDigit(c: byte) {
    0x30 <= c <= 0x39
  }

  /** The byte classes that the scanning loops run over. */
  datatype Class = Blank | Token | Digit {
    predicate Has(c: byte) {
      match this
      case Blank => IsSpace(c)
      case Token => !IsSpace(c)
      case Digit => IsDigit(c)
    }
  }

  /** Where the maximal run of class `cls` that starts at `pos` ends. */
  function Span(cls: Class, f: Bytes, pos: nat): (e: nat)
    requires pos <= |f|
    ensures pos <= e <= |f|
    ensures forall i :: pos <= i < e ==> cls.Has(f[i])
    ensures e < |f| ==> !cls.Has(f[e])
    decreases |f| - pos
  {
    if pos < |f| && cls.Has(f[pos]) then Span(cls, f, pos + 1) else pos
  }

  /** The three facts in the contract of `Span` pin its result. */
  lemma {:induction false} SpanUnique(cls: Class, f: Bytes, pos: nat, e: nat)
    requires pos <= e <= |f|
    requires forall i :: pos <= i < e ==> cls.Has(f[i])
    requires e < |f| ==> !cls.Has(f[e])
    ensures Span(cls, f, pos) == e
    decreases e - pos
  {
    if pos < e {
      SpanUnique(cls, f, pos + 1, e);
    }
  }

  /** A run that ends inside `g` is the same run in every extension of `g`. */
  lemma SpanStable(cls: Class, g: Bytes, f: Bytes, pos: nat)
    requires pos <= |g| && g <= f
    ensures Span(cls, g, pos) < |g| ==> Span(cls, f, pos) == Span(cls, g, pos)
    ensures Span(cls, f, pos) < |g| ==> Span(cls, f, pos) == Span(cls, g, pos)
  {
    var e := Span(cls, g, pos);
    if e < |g| {
      SpanUnique(cls, f, pos, e);
    }
    var d := Span(cls, f, pos);
    if d < |g| {
      SpanUnique(cls, g, pos, d);
    }
  }

  predicate AllDigits(s: Bytes) {
    forall i :: 0 <= i < |s| ==> IsDigit(s[i])
  }

  /** The number a non-empty or empty run of decimal digits denotes. */
  function Value(s: Bytes): nat
    requires AllDigits(s)
  {
    if s == [] then 0 else Value(s[..|s| - 1]) * 10 + (s[|s| - 1] as int - 0x30)
  }

  /** The shortest decimal numeral of `n`, as `<<` prints it. */
  function Numeral(n: nat): (s: Bytes)
    ensures |s| > 0 && AllDigits(s)
    ensures Value(s) == n
  {
    if n < 10 then
      var s := [(0x30 + n) as byte];
      assert s[..0] == [];
      s
    else
      var s := Numeral(n / 10) + [(0x30 + n % 10) as byte];
      assert s[..|s| - 1] == Numeral(n / 10);
      s
  }

  /** A number below 10^d prints in at most d digits. */
  lemma {:induction false} NumeralLength(n: nat, d: nat)
    requires 1 <= d && n < PowerOfTen(d)
    ensures |Numeral(n)| <= d
  {
    assert PowerOfTen(d) == 10 * PowerOfTen(d - 1);
    if n >= 10 {
      NumeralLength(n / 10, d - 1);
    }
  }

  function PowerOfTen(d: nat): nat {
    if d == 0 then 1 else 10 * PowerOfTen(d - 1)
  }

  predicate NewlineFree(s: Bytes) {
    NEWLINE !in s
  }
}
