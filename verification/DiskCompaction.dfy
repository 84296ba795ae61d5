/** Rewriting the data file with only its live records, in any iteration order of the index. */
module DiskCompaction {
  import opened ByteStrings
  import opened KeyValue
  import opened Records
  import opened Recovery
  import opened DiskIndex
  import opened DiskSizes

  predicate Distinct(order: seq<Bytes>) {
    forall i, j :: 0 <= i < j < |order| ==> order[i] != order[j]
  }

  predicate Covers(order: seq<Bytes>, m: Contents) {
    forall k :: k in order ==> k in m
  }

  /** `order` visits every key of `m` once. */
  predicate Enumerates(order: seq<Bytes>, m: Contents) {
    Distinct(order) && Covers(order, m) && forall k :: k in m ==> k in order
  }

  function Puts(order: seq<Bytes>, m: Contents): seq<Mutation>
    requires Covers(order, m)
  {
    if order == [] then []
    else
      var last := order[|order| - 1];
      Puts(order[..|order| - 1], m) + [Put(last, m[last])]
  }

  function CompactFile(order: seq<Bytes>, m: Contents): Bytes
    requires Covers(order, m)
  {
    EncodeAll(Puts(order, m))
  }

  function Restrict(m: Contents, order: seq<Bytes>): Contents {
    map k | k in m && k in order :: m[k]
  }

  lemma {:induction false} EncodeAllLast(ops: seq<Mutation>, op: Mutation)
    ensures EncodeAll(ops + [op]) == EncodeAll(ops) + Encode(op)
    decreases ops
  {
    hide Encode;
    if ops == [] {
      assert [op][1..] == [] && [] + [op] == [op];
    } else {
      assert (ops + [op])[1..] == ops[1..] + [op];
      EncodeAllLast(ops[1..], op);
    }
  }

  lemma CompactFileLast(order: seq<Bytes>, k: Bytes, m: Contents)
    requires Covers(order, m) && k in m
    ensures Covers(order + [k], m)
    ensures CompactFile(order + [k], m) == CompactFile(order, m) + Encode(Put(k, m[k]))
    ensures Puts(order + [k], m) == Puts(order, m) + [Put(k, m[k])]
  {
    hide Encode;
    assert (order + [k])[..|order|] == order;
    EncodeAllLast(Puts(order, m), Put(k, m[k]));
  }

  lemma RestrictLast(order: seq<Bytes>, k: Bytes, m: Contents)
    requires k in m && k !in order
    ensures Restrict(m, order + [k]) == Restrict(m, order)[k := m[k]]
    ensures Restrict(m, order + [k]) - {k} == Restrict(m, order)
  {
  }

  /** A partly written compaction: clean, holding exactly the keys visited so far, and as long
      as their records. */
  lemma {:induction false} CompactPrefix(order: seq<Bytes>, m: Contents)
    requires Distinct(order) && Covers(order, m) && AllStorable(m)
    ensures var f := CompactFile(order, m);
            Clean(f) && History(f) == Puts(order, m) && Recovered(f) == Restrict(m, order)
    decreases order
  {
    hide Encode, AllStorable;
    if order == [] {
      EmptyFile();
      assert Restrict(m, order) == map[];
    } else {
      var init, k := order[..|order| - 1], order[|order| - 1];
      assert init + [k] == order;
      CompactPrefix(init, m);
      CompactFileLast(init, k, m);
      RestrictLast(init, k, m);
      StorableAt(m, k);
      AppendWhole(CompactFile(init, m), Put(k, m[k]));
      ApplyAllLast(map[], Puts(init, m), Put(k, m[k]));
    }
  }

  lemma StorableAt(m: Contents, k: Bytes)
    requires AllStorable(m) && k in m
    ensures Storable(Put(k, m[k]))
  {
  }

  lemma {:induction false} CompactLength(order: seq<Bytes>, m: Contents)
    requires Distinct(order) && Covers(order, m)
    ensures |CompactFile(order, m)| == CompactSize(Restrict(m, order))
    decreases order
  {
    hide Encode, CompactSize;
    if order == [] {
      EmptySizes(map[], map[]);
      assert Restrict(m, order) == map[];
    } else {
      var init, k := order[..|order| - 1], order[|order| - 1];
      assert init + [k] == order;
      CompactLength(init, m);
      CompactFileLast(init, k, m);
      RestrictLast(init, k, m);
      CompactSizeStep(Restrict(m, order), k);
    }
  }

  /** For any iteration order, the compacted file is clean, holds the same contents and has the
      size the arithmetic speaks of. */
  lemma CompactionPreserves(order: seq<Bytes>, m: Contents)
    requires Enumerates(order, m) && AllStorable(m)
    ensures Clean(CompactFile(order, m)) && Recovered(CompactFile(order, m)) == m
    ensures |CompactFile(order, m)| == CompactSize(m)
  {
    hide CompactSize;
    CompactPrefix(order, m);
    CompactLength(order, m);
    assert Restrict(m, order) == m;
  }

  /* ---------------- what a restart does to the file ---------------- */

  function Healed(f: Bytes): Bytes {
    f[..ScanEnd(f, 0)]
  }

  ghost predicate CompactionOf(f: Bytes, g: Bytes) {
    exists order :: Enumerates(order, Recovered(f)) && g == CompactFile(order, Recovered(f))
  }

  /** `g` is a file that recovering `f` can leave behind: healed, then compacted if wasteful. */
  ghost predicate RecoversTo(f: Bytes, g: Bytes) {
    var h := Healed(f);
    if MostlyGarbage(|h|, LiveBytes(IndexOf(h))) then CompactionOf(h, g) else g == h
  }

  lemma CompactedFile(f: Bytes, g: Bytes)
    requires CompactionOf(f, g)
    ensures Clean(g) && Recovered(g) == Recovered(f) && |g| == CompactSize(Recovered(f))
  {
    hide CompactSize, CompactFile, Recovered;
    var order :| Enumerates(order, Recovered(f)) && g == CompactFile(order, Recovered(f));
    RecoveredStorable(f);
    CompactionPreserves(order, Recovered(f));
  }

  /** Healing and compaction leave the recovered contents alone, whatever bytes the file held. */
  lemma RecoveryPreserves(f: Bytes, g: Bytes)
    requires RecoversTo(f, g)
    ensures Clean(g) && Recovered(g) == Recovered(f)
    ensures Clean(Healed(f)) && Recovered(Healed(f)) == Recovered(f)
  {
    hide CompactionOf, LiveBytes, IndexOf;
    HealedFile(f);
    var h := Healed(f);
    if MostlyGarbage(|h|, LiveBytes(IndexOf(h))) {
      CompactedFile(h, g);
    }
  }

  lemma IndexLengths(f: Bytes)
    ensures IndexOf(f).Keys == Recovered(f).Keys
    ensures forall k :: k in IndexOf(f) ==> IndexOf(f)[k].len == |Recovered(f)[k]|
  {
    hide IndexOf, Recovered;
    IndexReads(f);
    var idx := IndexOf(f);
    forall k | k in idx
      ensures k in Recovered(f) && idx[k].len == |Recovered(f)[k]|
    {
      assert Within(idx[k], f);
    }
  }

  lemma SameLiveBytes(f: Bytes, g: Bytes)
    requires Recovered(f) == Recovered(g)
    ensures LiveBytes(IndexOf(f)) == LiveBytes(IndexOf(g))
  {
    hide IndexOf, Recovered;
    IndexLengths(f);
    IndexLengths(g);
    assert LiveWeights(IndexOf(f)) == LiveWeights(IndexOf(g));
  }

  /** A restart never leaves a file that the next restart would change, and a compacting one
      frees more than 4096 bytes. */
  lemma RecoverySettles(f: Bytes, g: Bytes)
    requires RecoversTo(f, g)
    ensures RecoversTo(g, g)
    ensures g == Healed(f) || |g| + 4096 < |Healed(f)|
  {
    hide CompactionOf, LiveBytes, IndexOf, CompactSize, Recovered;
    RecoveryPreserves(f, g);
    var h := Healed(f);
    SameLiveBytes(h, g);
    IndexLengths(h);
    RecoveredStorable(h);
    CompactionPaysOnce(|h|, IndexOf(h), Recovered(h));
    if MostlyGarbage(|h|, LiveBytes(IndexOf(h))) {
      CompactedFile(h, g);
    }
    assert Healed(g) == g;
  }

  /** How large a file a restart leaves behind: at most twice the payload and 48 bytes for each
      key, and 4096. It leaves the healed file as it is exactly if that is within this bound. */
  lemma RecoveryBounds(f: Bytes, g: Bytes)
    requires RecoversTo(f, g)
    ensures var m := Recovered(f); var bound := 2 * (Payload(m) + 24 * |m|) + 4096;
            |g| <= bound && (g == Healed(f) <==> |Healed(f)| <= bound)
  {
    hide CompactionOf, LiveBytes, IndexOf, CompactSize, Recovered, Payload, Healed;
    RecoveryPreserves(f, g);
    RecoverySettles(f, g);
    var h := Healed(f);
    IndexLengths(h);
    EstimateIsPayload(IndexOf(h), Recovered(h));
    if MostlyGarbage(|h|, LiveBytes(IndexOf(h))) {
      RecoveredStorable(h);
      CompactionPaysOnce(|h|, IndexOf(h), Recovered(h));
      CompactedFile(h, g);
    }
  }
}
