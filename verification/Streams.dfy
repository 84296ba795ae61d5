/** Formatted extraction from an input stream, on the bytes that remain at a position: what
    `in >> token` and `in >> size` read and where they leave the stream. */
module Streams {
  import opened ByteStrings
  import opened KeyValue

  datatype Extracted<+T> = Extracted(item: T, next: nat)

  const PLUS: byte := 0x2B
  const MINUS: byte := 0x2D
  const SIZE_LIMIT: nat := 0x1_0000_0000_0000_0000

  /** `in >> token`: skip whitespace, then take everything up to whitespace or end of file;
      failure when nothing is left. */
  function ReadToken(f: Bytes, pos: nat): (r: Option<Extracted<Bytes>>)
    requires pos <= |f|
    ensures r.Some? ==> pos < r.value.next <= |f| && r.value.item != []
  {
    var b := Span(Blank, f, pos);
    var e := Span(Token, f, b);
    if b == e then None else Some(Extracted(f[b..e], e))
  }

  /** `in >> size` for an unsigned 64-bit number: skip whitespace, an optional sign, decimal
      digits; failure without digits or on overflow; a minus sign wraps modulo 2^64. */
  function ReadSize(f: Bytes, pos: nat): (r: Option<Extracted<nat>>)
    requires pos <= |f|
    ensures r.Some? ==> pos < r.value.next <= |f| && r.value.item < SIZE_LIMIT
  {
    var b := Span(Blank, f, pos);
    var s := if b < |f| && (f[b] == PLUS || f[b] == MINUS) then b + 1 else b;
    var e := Span(Digit, f, s);
    if s == e || Value(f[s..e]) >= SIZE_LIMIT then None
    else
      var v := Value(f[s..e]);
      Some(Extracted(if f[b] == MINUS && v > 0 then SIZE_LIMIT - v else v, e))
  }

  /** An extraction that stops inside `g` reads the same in every extension of `g`, and the
      other way round: what lies past the stopping byte is never looked at. */
  lemma TokenStable(g: Bytes, f: Bytes, pos: nat)
    requires pos <= |g| && g <= f
    ensures ReadToken(g, pos).Some? && ReadToken(g, pos).value.next < |g| ==>
              ReadToken(f, pos) == ReadToken(g, pos)
    ensures ReadToken(f, pos).Some? && ReadToken(f, pos).value.next < |g| ==>
              ReadToken(g, pos) == ReadToken(f, pos)
  {
    SpanStable(Blank, g, f, pos);
    SpanStable(Token, g, f, Span(Blank, g, pos));
    var b := Span(Blank, g, pos);
    assert Span(Token, g, b) < |g| ==> f[b..Span(Token, g, b)] == g[b..Span(Token, g, b)];
  }

  lemma SizeStable(g: Bytes, f: Bytes, pos: nat)
    requires pos <= |g| && g <= f
    ensures ReadSize(g, pos).Some? && ReadSize(g, pos).value.next < |g| ==>
              ReadSize(f, pos) == ReadSize(g, pos)
    ensures ReadSize(f, pos).Some? && ReadSize(f, pos).value.next < |g| ==>
              ReadSize(g, pos) == ReadSize(f, pos)
  {
    hide Span, Value;
    SpanStable(Blank, g, f, pos);
    var b := Span(Blank, g, pos);
    if b < |g| {
      var s := if g[b] == PLUS || g[b] == MINUS then b + 1 else b;
      SpanStable(Digit, g, f, s);
      var e := Span(Digit, g, s);
      assert e < |g| ==> f[s..e] == g[s..e];
    }
  }

  /** `s` stands in `f` at offset `pos`. */
  predicate At(f: Bytes, pos: nat, s: Bytes) {
    pos + |s| <= |f| && f[pos..pos + |s|] == s
  }

  lemma AtConcat(f: Bytes, pos: nat, a: Bytes, b: Bytes)
    requires At(f, pos, a + b)
    ensures At(f, pos, a) && At(f, pos + |a|, b) && pos + |a| + |b| <= |f|
  {
    var s := f[pos..pos + |a + b|];
    assert s == a + b;
    assert f[pos..pos + |a|] == s[..|a|] == a;
    assert f[pos + |a|..pos + |a| + |b|] == s[|a|..] == b;
  }

  lemma SingleAt(f: Bytes, pos: nat, c: byte)
    requires At(f, pos, [c])
    ensures pos < |f| && f[pos] == c
  {
    assert f[pos] == f[pos..pos + 1][0];
  }

  /** Reading back a word that is followed by a space. */
  lemma TokenWritten(f: Bytes, pos: nat, word: Bytes)
    requires word != [] && forall i :: 0 <= i < |word| ==> !IsSpace(word[i])
    requires At(f, pos, word) && pos + |word| < |f| && f[pos + |word|] == SPACE
    ensures ReadToken(f, pos) == Some(Extracted(word, pos + |word|))
  {
    assert forall i :: pos <= i < pos + |word| ==> f[i] == word[i - pos];
    SpanUnique(Blank, f, pos, pos);
    SpanUnique(Token, f, pos, pos + |word|);
  }

  /** A length as the writers print it, with the space before it. */
  function LengthText(n: nat): Bytes {
    [SPACE] + Numeral(n)
  }

  /** Reading back a printed length that is followed by a space, if 64 bits can hold it. */
  lemma SizeWritten(f: Bytes, pos: nat, n: nat)
    requires At(f, pos, LengthText(n))
    requires pos + |LengthText(n)| < |f| && f[pos + |LengthText(n)|] == SPACE
    ensures ReadSize(f, pos) == if n < SIZE_LIMIT then Some(Extracted(n, pos + |LengthText(n)|)) else None
  {
    hide Numeral, Value;
    var e := pos + 1 + |Numeral(n)|;
    AtConcat(f, pos, [SPACE], Numeral(n));
    SingleAt(f, pos, SPACE);
    assert forall i :: pos + 1 <= i < e ==> f[i] == Numeral(n)[i - pos - 1];
    assert IsDigit(f[pos + 1]);
    SpanUnique(Blank, f, pos, pos + 1);
    SpanUnique(Digit, f, pos + 1, e);
  }

  /** A sign before the digits is accepted; a minus wraps modulo 2^64. */
  lemma SignedSize(f: Bytes, pos: nat, sign: byte, n: nat)
    requires sign == 0x2B || sign == 0x2D
    requires At(f, pos, [SPACE] + ([sign] + Numeral(n)))
    requires pos + 2 + |Numeral(n)| < |f| && f[pos + 2 + |Numeral(n)|] == SPACE
    ensures ReadSize(f, pos) ==
              if n >= 0x1_0000_0000_0000_0000 then None
              else Some(Extracted(if sign == 0x2D && n > 0 then 0x1_0000_0000_0000_0000 - n else n, pos + 2 + |Numeral(n)|))
  {
    hide Numeral, Value;
    var e := pos + 2 + |Numeral(n)|;
    AtConcat(f, pos, [SPACE], [sign] + Numeral(n));
    AtConcat(f, pos + 1, [sign], Numeral(n));
    SingleAt(f, pos, SPACE);
    SingleAt(f, pos + 1, sign);
    assert forall i :: pos + 2 <= i < e ==> f[i] == Numeral(n)[i - pos - 2];
    SpanUnique(Blank, f, pos, pos + 1);
    SpanUnique(Digit, f, pos + 2, e);
  }
}
