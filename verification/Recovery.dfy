/** Scanning a whole file of records after a restart. Every statement here is about arbitrary
    bytes: a file need not have been written by this program. */
module Recovery {
  import opened ByteStrings
  import opened KeyValue
  import opened Streams
  import opened Records

  /** The mutations a scan from `pos` accepts. */
  function Scan(f: Bytes, pos: nat): seq<Mutation>
    requires pos <= |f|
    decreases |f| - pos
  {
    match WalRead(f, pos)
    case None => []
    case Some(r) => [r.item] + Scan(f, r.next)
  }

  /** The offset just past the last record that a scan from `pos` accepts. */
  function ScanEnd(f: Bytes, pos: nat): (e: nat)
    requires pos <= |f|
    ensures pos <= e <= |f|
    decreases |f| - pos
  {
    match WalRead(f, pos)
    case None => pos
    case Some(r) => ScanEnd(f, r.next)
  }

  function History(f: Bytes): seq<Mutation> {
    Scan(f, 0)
  }

  /** The accepted records fill the file: it ends at a record boundary. */
  predicate Clean(f: Bytes) {
    ScanEnd(f, 0) == |f|
  }

  function Recovered(f: Bytes): Contents {
    ApplyAll(map[], History(f))
  }

  lemma NothingAtEnd(f: Bytes)
    ensures WalRead(f, |f|).None?
  {
    assert ReadToken(f, |f|).None?;
    assert ReadHeader(f, |f|).None?;
  }

  lemma {:induction false} ScanStorable(f: Bytes, pos: nat)
    requires pos <= |f|
    ensures forall op :: op in Scan(f, pos) ==> Storable(op)
    decreases |f| - pos
  {
    hide WalRead;
    var r := WalRead(f, pos);
    if r.Some? {
      ScanStorable(f, r.value.next);
    }
  }

  lemma {:induction false} AppliedStorable(m: Contents, ops: seq<Mutation>)
    requires AllStorable(m) && forall op :: op in ops ==> Storable(op)
    ensures AllStorable(ApplyAll(m, ops))
    decreases ops
  {
    if ops != [] {
      assert Storable(ops[0]);
      AppliedStorable(Apply(m, ops[0]), ops[1..]);
    }
  }

  lemma RecoveredStorable(f: Bytes)
    ensures AllStorable(Recovered(f))
  {
    ScanStorable(f, 0);
    AppliedStorable(map[], History(f));
  }

  /** Appending to a file that ends at a record boundary keeps every record it had. */
  lemma {:induction false} ScanExtend(g: Bytes, f: Bytes, pos: nat)
    requires pos <= |g| && g <= f && ScanEnd(g, pos) == |g|
    ensures Scan(f, pos) == Scan(g, pos) + Scan(f, |g|)
    ensures ScanEnd(f, pos) == ScanEnd(f, |g|)
    decreases |g| - pos
  {
    hide WalRead;
    WalReadStable(g, f, pos);
    var r := WalRead(g, pos);
    if r.Some? {
      ScanExtend(g, f, r.value.next);
      PrependConcat(r.value.item, Scan(g, r.value.next), Scan(f, |g|));
    }
  }

  lemma PrependConcat(op: Mutation, a: seq<Mutation>, b: seq<Mutation>)
    ensures [op] + (a + b) == ([op] + a) + b
  {
  }

  /** Cutting any file at the end of its last accepted record leaves a clean file with the
      same records. */
  lemma {:induction false} ScanHealed(f: Bytes, pos: nat)
    requires pos <= |f|
    ensures var g := f[..ScanEnd(f, pos)];
            Scan(g, pos) == Scan(f, pos) && ScanEnd(g, pos) == |g|
    decreases |f| - pos
  {
    hide WalRead;
    var g := f[..ScanEnd(f, pos)];
    WalReadStable(g, f, pos);
    var r := WalRead(f, pos);
    if r.Some? {
      ScanHealed(f, r.value.next);
    }
  }

  lemma HealedFile(f: Bytes)
    ensures var g := f[..ScanEnd(f, 0)]; Clean(g) && History(g) == History(f)
  {
    ScanHealed(f, 0);
  }

  /** A complete append to a clean file: one more record, and clean again. */
  lemma AppendWhole(f: Bytes, op: Mutation)
    requires Clean(f) && Storable(op)
    ensures Clean(f + Encode(op)) && History(f + Encode(op)) == History(f) + [op]
  {
    hide WalRead, Encode;
    var g := f + Encode(op);
    ScanExtend(f, g, 0);
    assert At(g, |f|, Encode(op));
    WalReadWritten(g, |f|, op);
    NothingAtEnd(g);
    assert Scan(g, |f|) == [op] + Scan(g, |g|);
  }

  lemma {:induction false} AppendAll(f: Bytes, ops: seq<Mutation>)
    requires Clean(f) && forall op :: op in ops ==> Storable(op)
    ensures Clean(f + EncodeAll(ops)) && History(f + EncodeAll(ops)) == History(f) + ops
    decreases ops
  {
    hide Clean, History, Encode, Storable;
    if ops == [] {
      assert f + EncodeAll(ops) == f;
    } else {
      assert ops[0] in ops;
      AppendWhole(f, ops[0]);
      AppendAll(f + Encode(ops[0]), ops[1..]);
      assert f + (Encode(ops[0]) + EncodeAll(ops[1..])) == f + Encode(ops[0]) + EncodeAll(ops[1..]);
    }
  }

  /** An append that a crash cut short: no new record, and the scan ends where it did. */
  lemma AppendTorn(f: Bytes, op: Mutation, m: nat)
    requires Clean(f) && Storable(op) && m < |Encode(op)|
    ensures var g := f + Encode(op)[..m]; History(g) == History(f) && ScanEnd(g, 0) == |f|
  {
    hide WalRead, Encode;
    var g := f + Encode(op)[..m];
    ScanExtend(f, g, 0);
    TornRecordRejected(f, op, m);
  }

  /** Behind a record that is not storable the scan finds nothing, neither it nor anything later. */
  lemma AppendUnstorable(f: Bytes, op: Mutation, more: Bytes)
    requires Clean(f) && !Storable(op)
    ensures var g := f + Encode(op) + more; History(g) == History(f) && ScanEnd(g, 0) == |f|
  {
    hide WalRead, Encode;
    var g := f + Encode(op) + more;
    assert f <= g;
    ScanExtend(f, g, 0);
    assert At(g, |f|, Encode(op));
    UnstorableRejected(g, |f|, op);
  }

  /** A whole record is found again if and only if its fields are neither empty nor over-long. */
  lemma AppendKept(f: Bytes, op: Mutation)
    requires Clean(f)
    ensures History(f + Encode(op)) == History(f) + [op] <==> Storable(op)
    ensures Clean(f + Encode(op)) <==> Storable(op)
    ensures Storable(op) <==> 0 < |op.key| <= 268_435_456 && (op.Put? ==> 0 < |op.value| <= 268_435_456)
  {
    if Storable(op) {
      AppendWhole(f, op);
    } else {
      AppendUnstorable(f, op, []);
      assert f + Encode(op) + [] == f + Encode(op);
      hide Encode, History;
      assert |History(f) + [op]| == |History(f)| + 1;
    }
  }

  lemma TakeOneMore(ops: seq<Mutation>, k: nat)
    requires k < |ops|
    ensures ops[..k + 1] == [ops[0]] + ops[1..][..k]
    ensures EncodeAll(ops[..k + 1]) == Encode(ops[0]) + EncodeAll(ops[1..][..k])
  {
    hide Encode;
    assert ops[..k + 1][1..] == ops[1..][..k];
  }

  /** How many of the records of `ops` lie completely within the first `n` bytes. */
  function Complete(ops: seq<Mutation>, n: nat): (k: nat)
    ensures k <= |ops|
  {
    if ops == [] || n < |Encode(ops[0])| then 0 else 1 + Complete(ops[1..], n - |Encode(ops[0])|)
  }

  lemma {:induction false} CompleteBounds(ops: seq<Mutation>, n: nat)
    ensures var k := Complete(ops, n);
            |EncodeAll(ops[..k])| <= n && (k < |ops| ==> n < |EncodeAll(ops[..k + 1])|)
    decreases ops
  {
    hide Encode;
    if ops != [] {
      var k := Complete(ops, n);
      if n < |Encode(ops[0])| {
        TakeOneMore(ops, 0);
      } else {
        CompleteBounds(ops[1..], n - |Encode(ops[0])|);
        TakeOneMore(ops, k - 1);
        if k < |ops| { TakeOneMore(ops, k); }
      }
    }
  }

  lemma CutConcat(pre: Bytes, a: Bytes, b: Bytes, n: nat)
    requires n <= |a| + |b|
    ensures n < |a| ==> pre + (a + b)[..n] == pre + a[..n]
    ensures n >= |a| ==> pre + (a + b)[..n] == pre + a + b[..n - |a|]
  {
  }

  /** Torn-prefix parsing: for every list of storable mutations and every byte prefix of their
      encoding, the scan accepts exactly the complete records and stops at their end. */
  lemma {:induction false} TornPrefix(pre: Bytes, ops: seq<Mutation>, n: nat)
    requires Clean(pre) && n <= |EncodeAll(ops)|
    requires forall op :: op in ops ==> Storable(op)
    ensures var f := pre + EncodeAll(ops)[..n]; var k := Complete(ops, n);
            && History(f) == History(pre) + ops[..k]
            && ScanEnd(f, 0) == |pre| + |EncodeAll(ops[..k])|
    decreases ops
  {
    hide Encode, History, ScanEnd;
    if ops == [] {
      assert pre + EncodeAll(ops)[..n] == pre;
    } else {
      var head := Encode(ops[0]);
      CutConcat(pre, head, EncodeAll(ops[1..]), n);
      if n < |head| {
        AppendTorn(pre, ops[0], n);
      } else {
        AppendWhole(pre, ops[0]);
        TornPrefix(pre + head, ops[1..], n - |head|);
        TakeOneMore(ops, Complete(ops[1..], n - |head|));
      }
    }
  }

  lemma EmptyFile()
    ensures Clean([]) && History([]) == []
  {
    NothingAtEnd([]);
  }
}
