/** The log-structured disk engine: an append-only data file and an index of value offsets. */
module DiskStore {
  import opened ByteStrings
  import opened KeyValue
  import opened Records
  import opened Recovery
  import opened DiskIndex
  import opened DiskSizes
  import opened DiskCompaction

  class Store {
    var file: Bytes
    var index: Index
    var ok: bool
    var room: nat

    ghost predicate Valid()
      reads this
    {
      ok ==> Clean(file) && index == IndexOf(file)
    }

    /** The contents a restart would find. */
    ghost function Live(): Contents
      reads this
    {
      Recovered(file)
    }

    /** What the engine needs to go on serving: every offset lies in the file. */
    ghost predicate Serving()
      reads this
    {
      InFile(file, index)
    }

    /** The contents that it serves. */
    ghost function Served(): Contents
      requires Serving()
      reads this
    {
      Lookup(file, index)
    }

    /** While the index is the one a rescan would build, a restart would find what is served. */
    lemma ValidServes()
      requires Valid() && ok
      ensures Serving() && Served() == Live()
    {
      hide IndexOf, Recovered, Clean;
      IndexReads(file);
    }

    /** Open a data file that holds `bytes`, on a device that takes `room` more. */
    constructor (bytes: Bytes, room: nat)
      ensures Valid() && ok && this.room == room
      ensures Serving() && Served() == Live() == Recovered(bytes)
      ensures RecoversTo(bytes, file)
    {
      file, index, ok, this.room := bytes, map[], true, room;
      new;
      Recover();
      RecoveryPreserves(bytes, file);
      ValidServes();
    }

    method ReadValue(e: Entry) returns (r: Option<Bytes>)
      ensures r == if Within(e, file) then Some(ValueAt(file, e)) else None
    {
      r := if Within(e, file) then Some(file[e.pos..e.pos + e.len]) else None;
    }

    /** Write one record at the end of the file and flush it. */
    method Append(record: Bytes)
      requires ok
      modifies `file, `ok, `room
      ensures ok <==> |record| < old(room)
      ensures file == old(file) + record[..Taken(old(room), |record|)]
      ensures ok ==> file == old(file) + record
    {
      file := file + record[..Taken(room, |record|)];
      if |record| < room {
        room := room - |record|;
      } else {
        ok, room := false, 0;
      }
    }

    /** A field over the cap is written and served, but lost to a restart, and with it everything
        behind it: recovery rejects its record. */
    method Set(key: Bytes, value: Bytes) returns (done: bool)
      requires Serving()
      modifies this
      ensures Serving() && Served() == if done then old(Served())[key := value] else old(Served())
      ensures done <==> old(ok) && key != [] && value != [] && |Encode(Put(key, value))| < old(room)
      ensures done ==> ok && file == old(file) + Encode(Put(key, value))
      ensures !old(ok) || key == [] || value == [] ==> file == old(file) && ok == old(ok) && room == old(room)
      ensures !done && old(ok) && key != [] && value != [] ==>
                !ok && file == old(file) + Encode(Put(key, value))[..old(room)]
      ensures old(Valid()) ==> (Valid() <==> !done || Storable(Put(key, value)))
      ensures old(Valid()) && done ==> Live() == if Storable(Put(key, value)) then old(Live())[key := value] else old(Live())
    {
      hide Encode, IndexOf, Recovered, Clean, HeaderText, FieldOk, InFile, Lookup;
      if !ok || key == [] || value == [] {
        return false;
      }
      ghost var was := file;
      var op := Put(key, value);
      var valuePos := |file| + |HeaderText(op)| + |key|;
      Append(Encode(op));
      LookupExtends(was, file, index);
      if !ok {
        return false;
      }
      ValueStands(was, op);
      LookupSet(file, index, key, Entry(valuePos, |value|));
      index := index[key := Entry(valuePos, |value|)];
      if old(Valid()) {
        AppendedOrLost(was, op);
      }
      return true;
    }

    method Get(key: Bytes) returns (r: Option<Bytes>)
      requires Serving()
      ensures r == if ok then Find(Served(), key) else None
    {
      if !ok {
        return None;
      }
      if key !in index {
        return None;
      }
      r := ReadValue(index[key]);
    }

    method Del(key: Bytes) returns (removed: bool)
      requires Serving()
      modifies this
      ensures Serving() && Served() == if removed then old(Served()) - {key} else old(Served())
      ensures removed <==> old(ok) && key != [] && key in old(Served()) && |Encode(Remove(key))| < old(room)
      ensures removed ==> ok && file == old(file) + Encode(Remove(key))
      ensures !old(ok) || key == [] || key !in old(Served()) ==> file == old(file) && ok == old(ok) && room == old(room)
      ensures !removed && old(ok) && key != [] && key in old(Served()) ==>
                !ok && file == old(file) + Encode(Remove(key))[..old(room)]
      ensures old(Valid()) ==> Valid() && (removed ==> Live() == old(Live()) - {key})
    {
      hide Encode, IndexOf, Recovered, Clean, InFile;
      ghost var was := file;
      if !ok || key == [] || key !in index {
        return false;
      }
      if old(Valid()) {
        IndexLengths(file);
        RecoveredStorable(file);
      }
      Append(Encode(Remove(key)));
      LookupExtends(was, file, index);
      if !ok {
        return false;
      }
      LookupDrop(file, index, key);
      index := index - {key};
      if old(Valid()) {
        Appended(was, Remove(key));
      }
      return true;
    }

    /** The cheap half of a snapshot: copy the offsets, in any order. */
    method SnapshotIndex() returns (entries: seq<(Bytes, Entry)>)
      ensures Captures(entries, index)
    {
      entries := [];
      var left := index.Keys;
      while left != {}
        invariant left <= index.Keys
        invariant forall e :: e in entries ==> e.0 in index.Keys - left && index[e.0] == e.1
        invariant forall i, j :: 0 <= i < j < |entries| ==> entries[i].0 != entries[j].0
        invariant forall k :: k in index.Keys - left ==> (k, index[k]) in entries
        decreases left
      {
        var k :| k in left;
        entries := entries + [(k, index[k])];
        left := left - {k};
      }
    }

    /** The slow half: read the values through a handle of its own, skipping what cannot be
        read. */
    method ReadSnapshot(entries: seq<(Bytes, Entry)>) returns (items: seq<Item>)
      ensures (forall i :: 0 <= i < |entries| ==> Within(entries[i].1, file)) ==>
                Materializes(entries, file, items)
    {
      items := [];
      for n := 0 to |entries|
        invariant (forall i :: 0 <= i < n ==> Within(entries[i].1, file)) ==>
                    && |items| == n
                    && forall i :: 0 <= i < n ==> items[i] == Item(entries[i].0, ValueAt(file, entries[i].1))
      {
        var (k, e) := entries[n];
        if Within(e, file) {
          items := items + [Item(k, file[e.pos..e.pos + e.len])];
        }
      }
    }

    /** Rebuild the index by scanning record headers, cut a torn tail, compact if wasteful. */
    method Recover()
      requires ok && index == map[]
      modifies this
      ensures ok && Clean(file) && index == IndexOf(file) && room == old(room)
      ensures RecoversTo(old(file), file)
    {
      ScanFile();
      hide IndexOf, LiveBytes, Clean;
      var wasteful := MostlyGarbageNow();
      if wasteful {
        Compact();
      }
    }

    method ScanFile()
      requires ok && index == map[]
      modifies `file, `index
      ensures file == Healed(old(file)) && Clean(file) && index == IndexOf(file)
    {
      hide DiskRead, WalRead;
      var data := file;
      var pos, lastGood := 0, 0;
      while true
        invariant pos == lastGood <= |data|
        invariant ScanIndex(data, pos, index) == IndexOf(data)
        invariant ScanEnd(data, pos) == ScanEnd(data, 0)
        decreases |data| - pos
      {
        SkippingReaderRefines(data, pos);
        var r := DiskRead(data, pos);
        if r.None? {
          break;
        }
        match r.value.item {
          case SetAt(k, e) => index := index[k := e];
          case DelAt(k) => index := index - {k};
        }
        pos := r.value.next;
        lastGood := pos;
      }
      HealedFile(data);
      ScanIndexHealed(data, 0, map[]);
      file := if |data| > lastGood then data[..lastGood] else data;
      assert file == Healed(data);
    }

    method MostlyGarbageNow() returns (b: bool)
      ensures b <==> MostlyGarbage(|file|, LiveBytes(index))
    {
      hide LiveBytes;
      var live := 0;
      var left := index.Keys;
      EmptySizes(map[], map[]);
      assert index - left == map[];
      while left != {}
        invariant left <= index.Keys
        invariant live == LiveBytes(index - left)
        decreases left
      {
        var k :| k in left;
        live := live + |k| + index[k].len + 24;
        LiveBytesStep(index - (left - {k}), k);
        assert index - (left - {k}) - {k} == index - left;
        left := left - {k};
      }
      assert index - left == index;
      b := |file| > 0 && |file| > 2 * live + 4096;
    }

    /** Write every live key to a new file, in any order, and swap it in with its offsets. */
    method Compact()
      requires ok && Clean(file) && index == IndexOf(file)
      modifies `file, `index
      ensures CompactionOf(old(file), file)
      ensures Clean(file) && index == IndexOf(file)
    {
      hide IndexOf, Recovered, Encode, HeaderText, CompactFile, Clean, Distinct, Covers, AllStorable;
      ghost var m := Recovered(file);
      IndexLengths(file);
      RecoveredStorable(file);
      StartCompaction(m);
      ghost var order: seq<Bytes> := [];
      var out: Bytes, newIndex: Index := [], map[];
      var left := index.Keys;
      while left != {}
        invariant file == old(file) && index == old(index) && left <= index.Keys
        invariant Distinct(order) && Covers(order, m)
        invariant forall k :: k in m ==> (k in order <==> k !in left)
        invariant out == CompactFile(order, m) && Clean(out) && newIndex == IndexOf(out)
        decreases left
      {
        var k :| k in left;
        IndexReadsAt(file, k);
        var value := ReadValue(index[k]);
        assert value.Some?;  // so the abort on a failed read is never taken
        newIndex := newIndex[k := Entry(|out| + |HeaderText(Put(k, value.value))| + |k|, |value.value|)];
        CompactStep(order, k, m);
        out := out + Encode(Put(k, value.value));
        order := order + [k];
        left := left - {k};
      }
      assert CompactionOf(file, out) by {
        VisitedAll(order, m);
      }
      file, index := out, newIndex;
    }
  }

  lemma IndexReadsAt(f: Bytes, k: Bytes)
    requires k in IndexOf(f)
    ensures k in Recovered(f) && Within(IndexOf(f)[k], f) && ValueAt(f, IndexOf(f)[k]) == Recovered(f)[k]
  {
    hide IndexOf, Recovered;
    IndexReads(f);
    assert Within(IndexOf(f)[k], f);
    assert Lookup(f, IndexOf(f))[k] == ValueAt(f, IndexOf(f)[k]);
  }

  lemma VisitedAll(order: seq<Bytes>, m: Contents)
    requires Distinct(order) && Covers(order, m) && forall k :: k in m ==> k in order
    ensures Enumerates(order, m)
  {
  }

  lemma CompactStep(order: seq<Bytes>, k: Bytes, m: Contents)
    requires Distinct(order) && Covers(order, m) && AllStorable(m) && k in m && k !in order
    ensures Distinct(order + [k]) && Covers(order + [k], m)
    ensures var f, op := CompactFile(order, m), Put(k, m[k]);
            var g := CompactFile(order + [k], m);
            g == f + Encode(op) && Clean(g) && IndexOf(g) == Note(IndexOf(f), Placed(|f|, op))
  {
    hide Encode, IndexOf, Recovered, Clean, AllStorable, Placed, CompactFile;
    CompactPrefix(order, m);
    CompactFileLast(order, k, m);
    StorableAt(m, k);
    Appended(CompactFile(order, m), Put(k, m[k]));
  }

  /** The offsets that one pass over an index copies out. */
  predicate Captures(entries: seq<(Bytes, Entry)>, idx: Index) {
    && (forall e :: e in entries ==> e.0 in idx && idx[e.0] == e.1)
    && (forall i, j :: 0 <= i < j < |entries| ==> entries[i].0 != entries[j].0)
    && (forall k :: k in idx ==> (k, idx[k]) in entries)
  }

  predicate Materializes(entries: seq<(Bytes, Entry)>, f: Bytes, items: seq<Item>) {
    && |items| == |entries|
    && forall i :: 0 <= i < |entries| ==> Within(entries[i].1, f) && items[i] == Item(entries[i].0, ValueAt(f, entries[i].1))
  }

  /** Offsets captured when the file was `f`, read after it has grown to `g`, list exactly the
      contents of the moment of capture. */
  lemma SnapshotReads(f: Bytes, g: Bytes, entries: seq<(Bytes, Entry)>, items: seq<Item>)
    requires f <= g && Captures(entries, IndexOf(f)) && Materializes(entries, g, items)
    ensures DistinctKeys(items) && AsContents(items) == Recovered(f)
  {
    hide IndexOf, Recovered;
    SnapshotIsolation(f, g);
    var idx, m := IndexOf(f), Recovered(f);
    forall i | 0 <= i < |items|
      ensures items[i].key in m && m[items[i].key] == items[i].value
    {
      assert entries[i] in entries;
    }
    forall k | k in m
      ensures HasKey(items, k)
    {
      var i :| 0 <= i < |entries| && entries[i] == (k, idx[k]);
      assert items[i].key == k;
    }
    ListsContents(items, m);
  }

  /** What a complete append does to a clean file, its index and its contents. */
  lemma Appended(f: Bytes, op: Mutation)
    requires Clean(f) && Storable(op)
    ensures var g := f + Encode(op);
            Clean(g) && IndexOf(g) == Note(IndexOf(f), Placed(|f|, op)) && Recovered(g) == Apply(Recovered(f), op)
  {
    hide Encode, IndexOf, Clean;
    AppendWhole(f, op);
    IndexAppend(f, op);
    ApplyAllLast(map[], History(f), op);
  }

  lemma LookupSet(f: Bytes, idx: Index, k: Bytes, e: Entry)
    requires InFile(f, idx) && Within(e, f)
    ensures InFile(f, idx[k := e]) && Lookup(f, idx[k := e]) == Lookup(f, idx)[k := ValueAt(f, e)]
  {
  }

  lemma LookupDrop(f: Bytes, idx: Index, k: Bytes)
    requires InFile(f, idx)
    ensures InFile(f, idx - {k}) && Lookup(f, idx - {k}) == Lookup(f, idx) - {k}
  {
  }

  /** A whole append to a clean file is found again exactly if it is storable. */
  lemma AppendedOrLost(f: Bytes, op: Mutation)
    requires Clean(f)
    ensures var g := f + Encode(op);
            && (Clean(g) <==> Storable(op))
            && (Storable(op) ==> IndexOf(g) == Note(IndexOf(f), Placed(|f|, op)))
            && Recovered(g) == if Storable(op) then Apply(Recovered(f), op) else Recovered(f)
  {
    hide Encode, IndexOf, Recovered, Clean, Placed, Note;
    if Storable(op) {
      Appended(f, op);
    } else {
      NotAppended(f, op);
    }
  }

  lemma NotAppended(f: Bytes, op: Mutation)
    requires Clean(f) && !Storable(op)
    ensures !Clean(f + Encode(op)) && Recovered(f + Encode(op)) == Recovered(f)
  {
    hide Encode, History, Clean;
    AppendKept(f, op);
    AppendUnstorable(f, op, []);
    assert f + Encode(op) + [] == f + Encode(op);
  }

  lemma ValueStands(f: Bytes, op: Mutation)
    requires op.Put?
    ensures var e := Entry(|f| + |HeaderText(op)| + |op.key|, |op.value|); var g := f + Encode(op);
            Within(e, g) && ValueAt(g, e) == op.value
  {
    hide HeaderText, Encode;
    EncodeParts(op);
    var h, g := HeaderText(op), f + Encode(op);
    assert g == (f + h + op.key) + (op.value + [NEWLINE]);
  }

  lemma StartCompaction(m: Contents)
    ensures Distinct([]) && Covers([], m)
    ensures CompactFile([], m) == [] && IndexOf([]) == map[] && Clean([])
  {
    NothingAtEnd([]);
    SkippingReaderRefines([], 0);
  }
}
