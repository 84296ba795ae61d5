/** The arithmetic behind the compaction threshold of the disk engine. */
module DiskSizes {
  import opened ByteStrings
  import opened KeyValue
  import opened Records
  import opened DiskIndex

  /** The sum of the weights in `w`, taken in some order. */
  ghost function Sum(w: map<Bytes, nat>): nat
    decreases |w|
  {
    if w == map[] then 0
    else
      var k :| k in w;
      w[k] + Sum(w - {k})
  }

  /** Any iteration order gives the same sum. */
  lemma {:induction false} SumAnyOrder(w: map<Bytes, nat>, k: Bytes)
    requires k in w
    ensures Sum(w) == w[k] + Sum(w - {k})
    decreases |w|
  {
    var c :| c in w && Sum(w) == w[c] + Sum(w - {c});
    if c != k {
      SumAnyOrder(w - {c}, k);
      SumAnyOrder(w - {k}, c);
      assert w - {c} - {k} == w - {k} - {c};
    }
  }

  const HEADER_ESTIMATE: nat := 24

  /** What the startup loop adds up for each live key. */
  function LiveWeights(idx: Index): map<Bytes, nat> {
    map k | k in idx :: |k| + idx[k].len + HEADER_ESTIMATE
  }

  ghost function LiveBytes(idx: Index): nat {
    Sum(LiveWeights(idx))
  }

  /** What compaction writes for each live key. */
  function RecordWeights(m: Contents): map<Bytes, nat> {
    map k | k in m :: |Encode(Put(k, m[k]))|
  }

  ghost function CompactSize(m: Contents): nat {
    Sum(RecordWeights(m))
  }

  /** A record is its two fields plus seven bytes and two numerals: at most 25 bytes more. */
  lemma RecordOverhead(k: Bytes, v: Bytes)
    ensures |Encode(Put(k, v))| == |k| + |v| + 7 + |Numeral(|k|)| + |Numeral(|v|)|
    ensures FieldOk(k) && FieldOk(v) ==> |Encode(Put(k, v))| <= |k| + |v| + 25
  {
    assert PowerOfTen(9) == 1_000_000_000 by {
      assert PowerOfTen(3) == 1000;
      assert PowerOfTen(6) == 1_000_000;
    }
    if FieldOk(k) && FieldOk(v) {
      NumeralLength(|k|, 9);
      NumeralLength(|v|, 9);
    }
  }

  lemma CompactSizeStep(m: Contents, k: Bytes)
    requires k in m
    ensures CompactSize(m) == |Encode(Put(k, m[k]))| + CompactSize(m - {k})
  {
    hide Encode;
    SumAnyOrder(RecordWeights(m), k);
    assert RecordWeights(m) - {k} == RecordWeights(m - {k});
  }

  lemma LiveBytesStep(idx: Index, k: Bytes)
    requires k in idx
    ensures LiveBytes(idx) == |k| + idx[k].len + HEADER_ESTIMATE + LiveBytes(idx - {k})
  {
    SumAnyOrder(LiveWeights(idx), k);
    assert LiveWeights(idx) - {k} == LiveWeights(idx - {k});
  }

  /** The estimate is short by at most one byte in 27 of what compaction writes. */
  lemma {:induction false} EstimateCoversCompaction(idx: Index, m: Contents)
    requires m.Keys == idx.Keys && AllStorable(m)
    requires forall k :: k in m ==> idx[k].len == |m[k]|
    ensures 26 * CompactSize(m) <= 27 * LiveBytes(idx)
    decreases |m|
  {
    hide Encode, CompactSize, LiveBytes;
    if m == map[] {
      EmptySizes(idx, m);
    } else {
      var k :| k in m;
      CompactSizeStep(m, k);
      LiveBytesStep(idx, k);
      RecordOverhead(k, m[k]);
      var idx', m' := idx - {k}, m - {k};
      assert forall c :: c in m' ==> c in m && m'[c] == m[c] && idx'[c] == idx[c];
      EstimateCoversCompaction(idx', m');
    }
  }

  lemma EmptySizes(idx: Index, m: Contents)
    requires m == map[] && idx.Keys == {}
    ensures CompactSize(m) == 0 && LiveBytes(idx) == 0
  {
    assert RecordWeights(m) == map[] && LiveWeights(idx) == map[];
  }

  /** The bytes of the keys and values alone. */
  ghost function Payload(m: Contents): nat {
    Sum(PayloadWeights(m))
  }

  function PayloadWeights(m: Contents): map<Bytes, nat> {
    map k | k in m :: |k| + |m[k]|
  }

  lemma PayloadStep(m: Contents, k: Bytes)
    requires k in m
    ensures Payload(m) == |k| + |m[k]| + Payload(m - {k})
  {
    SumAnyOrder(PayloadWeights(m), k);
    assert PayloadWeights(m) - {k} == PayloadWeights(m - {k});
  }

  /** The estimate of live bytes: the payload, and 24 bytes for each key. */
  lemma {:induction false} EstimateIsPayload(idx: Index, m: Contents)
    requires m.Keys == idx.Keys
    requires forall k :: k in m ==> idx[k].len == |m[k]|
    ensures LiveBytes(idx) == Payload(m) + 24 * |m|
    decreases |m|
  {
    if m == map[] {
      EmptySizes(idx, m);
      assert PayloadWeights(m) == map[];
    } else {
      hide LiveBytes, Payload;
      var k :| k in m;
      LiveBytesStep(idx, k);
      PayloadStep(m, k);
      var idx', m' := idx - {k}, m - {k};
      assert forall c :: c in m' ==> c in m && m'[c] == m[c] && idx'[c] == idx[c];
      assert m.Keys == m'.Keys + {k};
      EstimateIsPayload(idx', m');
    }
  }

  predicate MostlyGarbage(fileSize: nat, live: nat) {
    fileSize > 0 && fileSize > 2 * live + 4096
  }

  /** When the threshold fires, compaction frees more than 4096 bytes, and the compacted file
      does not fire it again. */
  lemma CompactionPaysOnce(fileSize: nat, idx: Index, m: Contents)
    requires m.Keys == idx.Keys && AllStorable(m)
    requires forall k :: k in m ==> idx[k].len == |m[k]|
    ensures MostlyGarbage(fileSize, LiveBytes(idx)) ==> CompactSize(m) + 4096 < fileSize
    ensures !MostlyGarbage(CompactSize(m), LiveBytes(idx))
  {
    EstimateCoversCompaction(idx, m);
  }
}
