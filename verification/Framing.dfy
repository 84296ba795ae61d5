/** Cutting a byte stream into lines, however the network cuts it into chunks. */
module Framing {
  import opened ByteStrings

  function LineEnd(b: Bytes): (e: nat)
    ensures e <= |b|
    ensures forall i :: 0 <= i < e ==> b[i] != NEWLINE
    ensures e < |b| ==> b[e] == NEWLINE
  {
    if b == [] || b[0] == NEWLINE then 0 else 1 + LineEnd(b[1..])
  }

  datatype Framed = Framed(lines: seq<Bytes>, left: Bytes)

  /** The complete lines of `b`, and the unfinished one behind them. */
  function Split(b: Bytes): Framed {
    var e := LineEnd(b);
    if e == |b| then Framed([], b)
    else
      var r := Split(b[e + 1..]);
      Framed([b[..e]] + r.lines, r.left)
  }

  /** The receive side of one connection. */
  class Connection {
    var inbuf: Bytes

    constructor ()
      ensures inbuf == []
    {
      inbuf := [];
    }

    /** Take in a received chunk and pull out every line it completes. */
    method Feed(chunk: Bytes) returns (lines: seq<Bytes>)
      modifies this
      ensures Framed(lines, inbuf) == Split(old(inbuf) + chunk)
    {
      hide LineEnd, Split;
      inbuf := inbuf + chunk;
      lines := [];
      ghost var target := Split(inbuf);
      assert [] + target.lines == target.lines;
      var newline := FindNewline(inbuf);
      while newline < |inbuf|
        invariant newline == LineEnd(inbuf)
        invariant Framed(lines + Split(inbuf).lines, Split(inbuf).left) == target
        decreases |inbuf|
      {
        SplitStep(inbuf, newline);
        ghost var rest := Split(inbuf[newline + 1..]).lines;
        assert lines + ([inbuf[..newline]] + rest) == lines + [inbuf[..newline]] + rest;
        lines := lines + [inbuf[..newline]];
        inbuf := inbuf[newline + 1..];
        newline := FindNewline(inbuf);
      }
      SplitNoLine(inbuf);
    }
  }

  method FindNewline(b: Bytes) returns (i: nat)
    ensures i == LineEnd(b)
  {
    i := 0;
    while i < |b| && b[i] != NEWLINE
      invariant i <= |b| && forall j :: 0 <= j < i ==> b[j] != NEWLINE
    {
      i := i + 1;
    }
    LineEndUnique(b, i);
  }

  lemma {:induction false} LineEndUnique(b: Bytes, e: nat)
    requires e <= |b| && (forall i :: 0 <= i < e ==> b[i] != NEWLINE) && (e < |b| ==> b[e] == NEWLINE)
    ensures LineEnd(b) == e
    decreases e
  {
    if e > 0 {
      LineEndUnique(b[1..], e - 1);
    }
  }

  lemma SplitStep(b: Bytes, e: nat)
    requires e < |b| && LineEnd(b) == e
    ensures Split(b) == Framed([b[..e]] + Split(b[e + 1..]).lines, Split(b[e + 1..]).left)
  {
    hide LineEnd;
  }

  lemma SplitNoLine(b: Bytes)
    requires LineEnd(b) == |b|
    ensures Split(b) == Framed([], b)
  {
  }

  lemma LineEndConcat(a: Bytes, b: Bytes)
    requires LineEnd(a) < |a|
    ensures LineEnd(a + b) == LineEnd(a)
    ensures var e := LineEnd(a); (a + b)[..e] == a[..e] && (a + b)[e + 1..] == a[e + 1..] + b
  {
    LineEndUnique(a + b, LineEnd(a));
  }

  /** Splitting a stream in two pieces, with the unfinished line carried over, finds the same
      lines as splitting it whole. */
  lemma {:induction false} SplitConcat(a: Bytes, b: Bytes)
    ensures var x := Split(a); var y := Split(x.left + b);
            Split(a + b) == Framed(x.lines + y.lines, y.left)
    decreases |a|
  {
    hide LineEnd, Split;
    var e := LineEnd(a);
    if e < |a| {
      SplitConcat(a[e + 1..], b);
      LineEndConcat(a, b);
      SplitStep(a + b, e);
      SplitStep(a, e);
    } else {
      SplitNoLine(a);
    }
  }

  function Flatten(chunks: seq<Bytes>): Bytes {
    if chunks == [] then [] else chunks[0] + Flatten(chunks[1..])
  }

  /** Feeding chunks one after another to a connection that holds `left`. */
  function FeedAll(left: Bytes, chunks: seq<Bytes>): Framed
    decreases chunks
  {
    if chunks == [] then Framed([], left)
    else
      var x := Split(left + chunks[0]);
      var y := FeedAll(x.left, chunks[1..]);
      Framed(x.lines + y.lines, y.left)
  }

  lemma SplitLeft(b: Bytes)
    ensures NewlineFree(Split(b).left)
  {
  }

  lemma SplitUnfinished(b: Bytes)
    requires NewlineFree(b)
    ensures Split(b) == Framed([], b)
  {
    LineEndUnique(b, |b|);
  }

  /** Chunking does not matter: every way of cutting a stream yields the same lines. */
  lemma {:induction false} ChunkingIsInvisible(left: Bytes, chunks: seq<Bytes>)
    requires NewlineFree(left)
    ensures FeedAll(left, chunks) == Split(left + Flatten(chunks))
    decreases chunks
  {
    hide Split, NewlineFree;
    if chunks == [] {
      SplitUnfinished(left);
      assert left + Flatten(chunks) == left;
    } else {
      var x := Split(left + chunks[0]);
      SplitLeft(left + chunks[0]);
      ChunkingIsInvisible(x.left, chunks[1..]);
      SplitConcat(left + chunks[0], Flatten(chunks[1..]));
      assert left + chunks[0] + Flatten(chunks[1..]) == left + Flatten(chunks);
    }
  }

  /** A sent line and the newline that ends it. */
  function Terminated(line: Bytes): Bytes {
    line + [NEWLINE]
  }

  lemma SplitOne(line: Bytes, more: Bytes)
    requires NewlineFree(line)
    ensures Split(Terminated(line) + more) == Framed([line] + Split(more).lines, Split(more).left)
  {
    var b := Terminated(line) + more;
    assert b[|line|] == NEWLINE;
    assert forall i :: 0 <= i < |line| ==> b[i] == line[i];
    LineEndUnique(b, |line|);
    assert b[..|line|] == line && b[|line| + 1..] == more;
    SplitStep(b, |line|);
  }
}
