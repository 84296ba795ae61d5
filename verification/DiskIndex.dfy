/** The in-memory index of the disk engine as a function of the data file, and what it reads. */
module DiskIndex {
  import opened ByteStrings
  import opened KeyValue
  import opened Streams
  import opened Records
  import opened Recovery

  type Index = map<Bytes, Entry>

  function Note(idx: Index, item: Located): Index {
    match item
    case SetAt(k, e) => idx[k := e]
    case DelAt(k) => idx - {k}
  }

  /** The index that the value-skipping scan builds from `pos` on. */
  function ScanIndex(f: Bytes, pos: nat, idx: Index): Index
    requires pos <= |f|
    decreases |f| - pos
  {
    match DiskRead(f, pos)
    case None => idx
    case Some(r) => ScanIndex(f, r.next, Note(idx, r.item))
  }

  function IndexOf(f: Bytes): Index {
    ScanIndex(f, 0, map[])
  }

  predicate Within(e: Entry, f: Bytes) {
    e.pos + e.len <= |f|
  }

  function ValueAt(f: Bytes, e: Entry): Bytes
    requires Within(e, f)
  {
    f[e.pos..e.pos + e.len]
  }

  predicate InFile(f: Bytes, idx: Index) {
    forall k :: k in idx ==> Within(idx[k], f)
  }

  /** Every key of the index with the bytes its entry spans. */
  function Lookup(f: Bytes, idx: Index): Contents
    requires InFile(f, idx)
  {
    map k | k in idx :: ValueAt(f, idx[k])
  }

  lemma NoteReads(f: Bytes, pos: nat, idx: Index)
    requires pos <= |f| && InFile(f, idx) && WalRead(f, pos).Some?
    ensures DiskRead(f, pos).Some? && DiskRead(f, pos).value.next == WalRead(f, pos).value.next
    ensures var idx' := Note(idx, DiskRead(f, pos).value.item);
            InFile(f, idx') && Lookup(f, idx') == Apply(Lookup(f, idx), WalRead(f, pos).value.item)
  {
    hide WalRead, DiskRead;
    SkippingReaderRefines(f, pos);
  }

  lemma {:induction false} ScanIndexReads(f: Bytes, pos: nat, idx: Index)
    requires pos <= |f| && InFile(f, idx)
    ensures InFile(f, ScanIndex(f, pos, idx))
    ensures Lookup(f, ScanIndex(f, pos, idx)) == ApplyAll(Lookup(f, idx), Scan(f, pos))
    decreases |f| - pos
  {
    hide WalRead, DiskRead, Lookup, InFile;
    SkippingReaderRefines(f, pos);
    var r := WalRead(f, pos);
    if r.Some? {
      NoteReads(f, pos, idx);
      ScanIndexReads(f, r.value.next, Note(idx, DiskRead(f, pos).value.item));
      assert Scan(f, pos)[1..] == Scan(f, r.value.next);
    }
  }

  /** The index rebuilt by skipping values reads exactly the contents that applying every
      record would give, for any file whatever. */
  lemma IndexReads(f: Bytes)
    ensures InFile(f, IndexOf(f)) && Lookup(f, IndexOf(f)) == Recovered(f)
  {
    ScanIndexReads(f, 0, map[]);
    assert Lookup(f, map[]) == map[];
  }

  lemma DiskReadStable(g: Bytes, f: Bytes, pos: nat)
    requires pos <= |g| && g <= f
    ensures DiskRead(g, pos).Some? ==> DiskRead(f, pos) == DiskRead(g, pos)
    ensures DiskRead(f, pos).Some? && DiskRead(f, pos).value.next <= |g| ==>
              DiskRead(g, pos) == DiskRead(f, pos)
  {
    hide WalRead, DiskRead;
    WalReadStable(g, f, pos);
    SkippingReaderRefines(g, pos);
    SkippingReaderRefines(f, pos);
  }

  lemma {:induction false} ScanIndexExtend(g: Bytes, f: Bytes, pos: nat, idx: Index)
    requires pos <= |g| && g <= f && ScanEnd(g, pos) == |g|
    ensures ScanIndex(f, pos, idx) == ScanIndex(f, |g|, ScanIndex(g, pos, idx))
    decreases |g| - pos
  {
    hide WalRead, DiskRead;
    DiskReadStable(g, f, pos);
    SkippingReaderRefines(g, pos);
    var r := DiskRead(g, pos);
    if r.Some? {
      ScanIndexExtend(g, f, r.value.next, Note(idx, r.value.item));
    }
  }

  lemma {:induction false} ScanIndexHealed(f: Bytes, pos: nat, idx: Index)
    requires pos <= |f|
    ensures ScanIndex(f[..ScanEnd(f, pos)], pos, idx) == ScanIndex(f, pos, idx)
    decreases |f| - pos
  {
    hide WalRead, DiskRead;
    var g := f[..ScanEnd(f, pos)];
    DiskReadStable(g, f, pos);
    SkippingReaderRefines(f, pos);
    var r := DiskRead(f, pos);
    if r.Some? {
      ScanIndexHealed(f, r.value.next, Note(idx, r.value.item));
    }
  }

  /** Where the value of `op` lies when its record starts at `pos`. */
  function ValueOffset(pos: nat, op: Mutation): nat {
    pos + |HeaderText(op)| + |op.key|
  }

  function Placed(pos: nat, op: Mutation): Located {
    match op
    case Put(k, v) => SetAt(k, Entry(ValueOffset(pos, op), |v|))
    case Remove(k) => DelAt(k)
  }

  lemma EncodeLength(pos: nat, op: Mutation)
    ensures pos + |Encode(op)| == ValueOffset(pos, op) + (if op.Put? then |op.value| else 0) + 1
  {
    hide HeaderText;
  }

  lemma WrittenLocated(g: Bytes, pos: nat, op: Mutation)
    requires Storable(op) && At(g, pos, Encode(op))
    ensures DiskRead(g, pos) == Some(Extracted(Placed(pos, op), pos + |Encode(op)|))
  {
    hide WalRead, DiskRead, Encode, ValueOffset, At;
    assert pos <= |g| by { assert At(g, pos, Encode(op)); AtBounds(g, pos, Encode(op)); }
    EncodeLength(pos, op);
    WalReadWritten(g, pos, op);
    SkippingReaderRefines(g, pos);
  }

  lemma AtBounds(g: Bytes, pos: nat, s: Bytes)
    requires At(g, pos, s)
    ensures pos + |s| <= |g|
  {
  }

  /** Updating the index in place at an append gives what a rescan of the longer file gives. */
  lemma IndexAppend(f: Bytes, op: Mutation)
    requires Clean(f) && Storable(op)
    ensures IndexOf(f + Encode(op)) == Note(IndexOf(f), Placed(|f|, op))
  {
    hide WalRead, DiskRead, Encode, Placed, Note;
    var g := f + Encode(op);
    ScanIndexExtend(f, g, 0, map[]);
    var idx := ScanIndex(f, 0, map[]);
    assert At(g, |f|, Encode(op));
    WrittenLocated(g, |f|, op);
    NothingAtEnd(g);
    SkippingReaderRefines(g, |g|);
    assert ScanIndex(g, |f|, idx) == ScanIndex(g, |g|, Note(idx, Placed(|f|, op)));
  }

  /** Offsets keep reading the same as the file grows. */
  lemma LookupExtends(f: Bytes, g: Bytes, idx: Index)
    requires f <= g && InFile(f, idx)
    ensures InFile(g, idx) && Lookup(g, idx) == Lookup(f, idx)
  {
    forall k | k in idx
      ensures Within(idx[k], g) && ValueAt(g, idx[k]) == ValueAt(f, idx[k])
    {
      assert Within(idx[k], f);
    }
  }

  /** Offsets captured when the file was `f` still read the contents of that moment after any
      number of appends. */
  lemma SnapshotIsolation(f: Bytes, g: Bytes)
    requires f <= g
    ensures InFile(g, IndexOf(f)) && Lookup(g, IndexOf(f)) == Recovered(f)
  {
    hide IndexOf, Recovered;
    IndexReads(f);
    LookupExtends(f, g, IndexOf(f));
  }
}
