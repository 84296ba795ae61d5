/** The records that one request of the in-memory engine appends to its log, and what becomes of
    them on a failing device. A SET that evicts appends two. */
module WalWrites {
  import opened ByteStrings
  import opened KeyValue
  import opened Records
  import opened Recovery
  import opened WriteAheadLog
  import opened LruCache
  import opened WalRuns

  /** The records that a request appends when nothing fails. */
  function Writes(c: Cache, r: Request): seq<Mutation> {
    match r
    case SetRequest(k, v) =>
      [Put(k, v)] + (if !Has(c, k) && c.capacity > 0 && |c.items| >= c.capacity
                     then [Remove(c.items[|c.items| - 1].key)] else [])
    case GetRequest(_) => []
    case DelRequest(k) => if Has(c, k) then [Remove(k)] else []
  }

  predicate FitsIn(m: Contents, capacity: nat) {
    capacity == 0 || |m| <= capacity
  }

  /** What the records of one request can be, on contents that fit. */
  predicate Shaped(m: Contents, capacity: nat, writes: seq<Mutation>) {
    && FitsIn(m, capacity)
    && (forall op :: op in writes ==> Storable(op))
    && |writes| <= 2
    && (|writes| == 1 ==> FitsIn(Apply(m, writes[0]), capacity))
    && (|writes| == 2 ==> Evicting(m, capacity, writes[0], writes[1]))
  }

  /** An insert into full contents, and the removal that makes room for it. */
  predicate Evicting(m: Contents, capacity: nat, insert: Mutation, evict: Mutation) {
    && insert.Put? && evict.Remove?
    && 0 < capacity == |m|
    && insert.key !in m && evict.key in m
  }

  predicate StorableItems(items: seq<Item>) {
    forall i :: 0 <= i < |items| ==> FieldOk(items[i].key) && FieldOk(items[i].value)
  }

  /** An engine in service, whatever its log has to do with its contents. */
  predicate Usable(c: Cache) {
    DistinctKeys(c.items) && StorableItems(c.items) && Fits(c) && !c.replaying
  }

  lemma LiveIsUsable(c: Cache, h: seq<Mutation>)
    requires Live(c, h)
    ensures Usable(c)
  {
    hide Holds, ApplyAll;
    AsContentsHolds(c.items);
  }

  lemma FrontIsUsable(items: seq<Item>, n: nat)
    requires DistinctKeys(items) && StorableItems(items) && n <= |items|
    ensures DistinctKeys(items[..n]) && StorableItems(items[..n])
  {
  }

  lemma DropIsUsable(items: seq<Item>, p: nat)
    requires DistinctKeys(items) && StorableItems(items) && p < |items|
    ensures var t := items[..p] + items[p + 1..]; DistinctKeys(t) && StorableItems(t)
  {
    DropDistinct(items, p);
    var t := items[..p] + items[p + 1..];
    assert forall i :: 0 <= i < |t| ==> t[i] == items[if i < p then i else i + 1];
  }

  lemma InsertIsUsable(items: seq<Item>, k: Bytes, v: Bytes)
    requires DistinctKeys(items) && StorableItems(items) && FieldOk(k) && FieldOk(v)
    requires forall i :: 0 <= i < |items| ==> items[i].key != k
    ensures var t := [Item(k, v)] + items; DistinctKeys(t) && StorableItems(t)
  {
    var t := [Item(k, v)] + items;
    assert forall i :: 0 < i < |t| ==> t[i] == items[i - 1];
  }

  lemma TouchIsUsable(items: seq<Item>, p: nat, v: Bytes)
    requires DistinctKeys(items) && StorableItems(items) && p < |items| && FieldOk(v)
    ensures var t := Touch(items, p, v); DistinctKeys(t) && StorableItems(t) && |t| == |items|
  {
    DropIsUsable(items, p);
    var rest := items[..p] + items[p + 1..];
    assert forall i :: 0 <= i < |rest| ==> rest[i].key == items[if i < p then i else i + 1].key;
    InsertIsUsable(rest, items[p].key, v);
  }

  /** Every request leaves the engine in service, on any device. */
  lemma ServeUsable(c: Cache, r: Request)
    requires Usable(c) && Acceptable(r)
    ensures Usable(Serve(c, r)) && Serve(c, r).capacity == c.capacity
    ensures Serve(c, r).log.Attached? <==> c.log.Attached?
  {
    ServeKeepsLog(c, r);
    hide DistinctKeys, AppendTo, EvictAll, Touch, FieldOk;
    var p := Position(c.items, r.key);
    match r
    case SetRequest(k, v) => SetUsable(c, k, v);
    case GetRequest(_) =>
      if p < |c.items| { TouchIsUsable(c.items, p, c.items[p].value); }
    case DelRequest(_) =>
      if p < |c.items| { DropIsUsable(c.items, p); }
  }

  lemma SetUsable(c: Cache, k: Bytes, v: Bytes)
    requires Usable(c) && FieldOk(k) && FieldOk(v)
    ensures Usable(Set(c, k, v).cache) && Set(c, k, v).cache.capacity == c.capacity
  {
    hide DistinctKeys, StorableItems, AppendTo, EvictAll, Touch, FieldOk;
    var p := Position(c.items, k);
    var a := AppendTo(c.log, Put(k, v));
    if a.done {
      if p < |c.items| {
        TouchIsUsable(c.items, p, v);
      } else {
        InsertIsUsable(c.items, k, v);
        var c3 := c.(log := a.log, outbox := c.outbox + [Put(k, v)], items := [Item(k, v)] + c.items);
        EvictAllKeepsFront(c3, true);
        var d := EvictAll(c3, true);
        FrontIsUsable(c3.items, |d.items|);
        assert d.items == c3.items[..|d.items|];
      }
    }
  }

  lemma WritesShaped(c: Cache, r: Request)
    requires Usable(c) && !Failed(c.log) && Acceptable(r)
    ensures Shaped(View(c), c.capacity, Writes(c, r))
  {
    hide Writes, StorableItems, DistinctKeys, Shaped, View;
    ListedSize(c);
    match r
    case SetRequest(k, v) => SetShaped(c, k, v);
    case GetRequest(k) => GetShaped(c, k);
    case DelRequest(k) => DelShaped(c, k);
  }

  lemma ListedSize(c: Cache)
    requires DistinctKeys(c.items)
    ensures |View(c)| == |c.items|
  {
    AsContentsHolds(c.items);
  }

  lemma GetShaped(c: Cache, k: Bytes)
    requires FitsIn(View(c), c.capacity)
    ensures Shaped(View(c), c.capacity, Writes(c, GetRequest(k)))
  {
  }

  lemma SetShaped(c: Cache, k: Bytes, v: Bytes)
    requires DistinctKeys(c.items) && StorableItems(c.items) && FitsIn(View(c), c.capacity) && FieldOk(k) && FieldOk(v)
    ensures Shaped(View(c), c.capacity, Writes(c, SetRequest(k, v)))
  {
    ListedSize(c);
    HasIsContents(c, k);
    if c.items != [] { StoredBack(c); }
    InsertSize(View(c), k, v);
    hide AsContents, DistinctKeys, Position, StorableItems, FieldOk;
  }

  lemma DelShaped(c: Cache, k: Bytes)
    requires DistinctKeys(c.items) && StorableItems(c.items) && FitsIn(View(c), c.capacity)
    ensures Shaped(View(c), c.capacity, Writes(c, DelRequest(k)))
  {
    HasIsContents(c, k);
    KeyIsStorable(c, k);
    InsertSize(View(c), k, []);
    hide AsContents, DistinctKeys, Position, StorableItems, FieldOk;
  }

  lemma StoredBack(c: Cache)
    requires DistinctKeys(c.items) && StorableItems(c.items) && c.items != []
    ensures var k := c.items[|c.items| - 1].key; k in View(c) && Storable(Remove(k))
  {
    AsContentsHolds(c.items);
  }

  lemma KeyIsStorable(c: Cache, k: Bytes)
    requires StorableItems(c.items)
    ensures Has(c, k) ==> FieldOk(k)
  {
  }

  lemma InsertSize(m: Contents, k: Bytes, v: Bytes)
    ensures |m[k := v]| == |m| + (if k in m then 0 else 1)
    ensures k in m ==> |m - {k}| == |m| - 1
  {
    if k in m {
      assert m[k := v].Keys == m.Keys;
      assert m.Keys == (m - {k}).Keys + {k};
    } else {
      assert m[k := v].Keys == m.Keys + {k};
    }
  }

  /** What one append does to the bytes of a good log. */
  lemma AppendBytes(log: Log, op: Mutation)
    requires log.Attached? && log.ok
    ensures var a := AppendTo(log, op);
            && a.log.Attached?
            && (a.done ==> a.log.ok && a.log.bytes == log.bytes + Encode(op))
            && (!a.done ==> !a.log.ok && |log.bytes| <= |a.log.bytes| <= |log.bytes| + |Encode(op)| &&
                            a.log.bytes == log.bytes + Encode(op)[..|a.log.bytes| - |log.bytes|])
  {
    hide Encode;
  }

  /** From `c` to `d` the log took on the records `ops`, or failed within them; a failure in
      the first leaves the contents alone, a failure in the second leaves the first applied. */
  predicate Wrote(c: Cache, ops: seq<Mutation>, d: Cache) {
    && c.log.Attached? && d.log.Attached? && |c.log.bytes| <= |d.log.bytes|
    && var n := |d.log.bytes| - |c.log.bytes|;
       if d.log.ok then d.log.bytes == c.log.bytes + EncodeAll(ops)
       else
         && n <= |EncodeAll(ops)| && d.log.bytes == c.log.bytes + EncodeAll(ops)[..n]
         && (View(d) == View(c) || (|ops| == 2 && n >= |Encode(ops[0])| && View(d) == Apply(View(c), ops[0])))
  }

  lemma EncodeOne(op: Mutation)
    ensures EncodeAll([op]) == Encode(op)
  {
    hide Encode;
    assert [op][1..] == [];
  }

  lemma EncodeTwo(a: Mutation, b: Mutation)
    ensures EncodeAll([a, b]) == Encode(a) + Encode(b) && [a] + [b] == [a, b]
  {
    hide Encode;
    EncodeOne(b);
    assert [a, b][1..] == [b];
  }

  lemma WroteOne(c: Cache, op: Mutation, d: Cache)
    requires c.log.Attached? && c.log.ok && d.log == AppendTo(c.log, op).log
    requires !AppendTo(c.log, op).done ==> View(d) == View(c)
    ensures Wrote(c, [op], d)
  {
    hide AppendTo, Encode, EncodeAll, View;
    EncodeOne(op);
    AppendBytes(c.log, op);
  }

  lemma WroteTwo(c: Cache, a: Mutation, b: Mutation, mid: Log, d: Cache)
    requires c.log.Attached? && c.log.ok && AppendTo(c.log, a) == Appended(mid, true) && d.log == AppendTo(mid, b).log
    requires !AppendTo(mid, b).done ==> View(d) == Apply(View(c), a)
    ensures Wrote(c, [a, b], d)
  {
    hide AppendTo, Encode, EncodeAll, View, Apply;
    EncodeTwo(a, b);
    AppendBytes(c.log, a);
    AppendBytes(mid, b);
    var x, y := Encode(a), Encode(b);
    assert c.log.bytes + x + y == c.log.bytes + (x + y);
    if !d.log.ok {
      var t := |d.log.bytes| - |mid.bytes|;
      CutConcat(c.log.bytes, x, y, |x| + t);
    }
  }

  lemma SetWrites(c: Cache, key: Bytes, value: Bytes)
    requires Usable(c) && c.log.Attached? && c.log.ok
    ensures Wrote(c, Writes(c, SetRequest(key, value)), Set(c, key, value).cache)
  {
    assert c.capacity > 0 ==> |c.items| <= c.capacity;
    assert DistinctKeys(c.items) && !c.replaying;
    hide Usable, AppendTo, EvictAll, Position, Wrote, DistinctKeys, View, Touch;
    var op := Put(key, value);
    var a := AppendTo(c.log, op);
    var d := Set(c, key, value).cache;
    if !a.done {
      RefusedWrites(c, op, Writes(c, SetRequest(key, value)), d);
    } else if Has(c, key) {
      assert [op] + [] == [op];
      WroteOne(c, op, d);
    } else {
      FrontContents(c.items, key, value);
      var front := [Item(key, value)] + c.items;
      var c3 := c.(log := a.log, outbox := c.outbox + [op], items := front);
      EvictAllKeepsFront(c3, true);
      if c.capacity > 0 && |c.items| >= c.capacity {
        EvictOne(c3);
        InsertView(c, c3, d, key, value);
        EncodeTwo(op, Remove(c.items[|c.items| - 1].key));
        assert front[c.capacity] == c.items[|c.items| - 1];
        WroteTwo(c, op, Remove(c.items[|c.items| - 1].key), a.log, d);
      } else {
        assert [op] + [] == [op];
        WroteOne(c, op, d);
      }
    }
  }

  lemma InsertView(c: Cache, c3: Cache, d: Cache, key: Bytes, value: Bytes)
    requires DistinctKeys(c.items) && !Has(c, key) && c3.items == [Item(key, value)] + c.items
    ensures d.items == c3.items ==> View(d) == Apply(View(c), Put(key, value))
  {
    hide DistinctKeys;
    FrontContents(c.items, key, value);
  }

  /** A request refused at its first record. */
  lemma RefusedWrites(c: Cache, op: Mutation, ops: seq<Mutation>, d: Cache)
    requires c.log.Attached? && c.log.ok && !AppendTo(c.log, op).done && d == c.(log := AppendTo(c.log, op).log)
    requires ops != [] && ops[0] == op
    ensures Wrote(c, ops, d)
  {
    hide AppendTo, Encode;
    AppendBytes(c.log, op);
    var n := |d.log.bytes| - |c.log.bytes|;
    assert (Encode(op) + EncodeAll(ops[1..]))[..n] == Encode(op)[..n];
  }

  lemma ServeWrites(c: Cache, r: Request)
    requires Usable(c) && c.log.Attached? && c.log.ok
    ensures Wrote(c, Writes(c, r), Serve(c, r))
  {
    assert DistinctKeys(c.items);
    hide Usable, AppendTo, Position, Wrote, DistinctKeys, View, Set;
    match r
    case SetRequest(k, v) => SetWrites(c, k, v);
    case GetRequest(k) => GetKeepsView(c, k); WroteNothing(c, Get(c, k));
    case DelRequest(k) =>
      if Has(c, k) {
        if AppendTo(c.log, Remove(k)).done { WroteOne(c, Remove(k), Del(c, k).cache); }
        else { RefusedWrites(c, Remove(k), [Remove(k)], Del(c, k).cache); }
      } else {
        WroteNothing(c, c);
      }
  }

  lemma WroteNothing(c: Cache, d: Cache)
    requires c.log.Attached? && c.log.ok && d.log == c.log
    ensures Wrote(c, [], d)
  {
    assert EncodeAll([]) == [];
  }

  lemma StoredInFront(c: Cache, key: Bytes, value: Bytes)
    requires Set(c, key, value).done
    ensures var d := Set(c, key, value).cache; key in View(d) && View(d)[key] == value
  {
    hide AppendTo, EvictAll, Position;
    var p := Position(c.items, key);
    var a := AppendTo(c.log, Put(key, value));
    var d := Set(c, key, value).cache;
    EvictAllKeepsFront(c.(log := a.log, outbox := c.outbox + [Put(key, value)], items := [Item(key, value)] + c.items), true);
    assert d.items != [] && d.items[0] == Item(key, value);
  }

  /** A good log recovers to the contents and ends at a record boundary. */
  lemma GoodLog(c: Cache, h: seq<Mutation>)
    requires Live(c, h) && c.log.Attached? && c.log.ok
    ensures Clean(c.log.bytes) && Recovered(c.log.bytes) == View(c)
  {
    hide Clean, Load;
    RestartExact(c, h, 0);
  }

  /** Why the protocol's care for its fields is needed: a SET that the device takes is found
      again by a replay if and only if neither field is empty or over-long. */
  lemma SetIsLogged(c: Cache, h: seq<Mutation>, key: Bytes, value: Bytes)
    requires Live(c, h) && c.log.Attached? && c.log.ok && !Failed(Set(c, key, value).cache.log)
    ensures var d := Set(c, key, value).cache;
            d.log.Attached? && (Recovered(d.log.bytes) == View(d) <==> FieldOk(key) && FieldOk(value))
  {
    hide Set, Recovered, View, AppendTo, Live, Usable, Wrote, FieldOk;
    LiveIsUsable(c, h);
    SetWrites(c, key, value);
    var d := Set(c, key, value).cache;
    assert d.log.Attached? by { WroteAttached(c, Writes(c, SetRequest(key, value)), d); }
    if Storable(Put(key, value)) {
      SetLive(c, h, key, value);
      GoodLog(d, h);
    } else {
      UnloggedSet(c, h, key, value);
    }
  }

  lemma WroteAttached(c: Cache, ops: seq<Mutation>, d: Cache)
    requires Wrote(c, ops, d)
    ensures d.log.Attached?
  {
  }

  lemma UnloggedSet(c: Cache, h: seq<Mutation>, key: Bytes, value: Bytes)
    requires Live(c, h) && c.log.Attached? && c.log.ok && !Storable(Put(key, value))
    requires var d := Set(c, key, value).cache; d.log.Attached? && d.log.ok
    ensures var d := Set(c, key, value).cache; Recovered(d.log.bytes) == View(c) != View(d)
  {
    assert !(key in View(c) && View(c)[key] == value);
    hide Set, Recovered, Encode, Clean, View, AppendTo, History, Live, Usable, FieldOk;
    var op, d := Put(key, value), Set(c, key, value).cache;
    LiveIsUsable(c, h);
    SetWrites(c, key, value);
    GoodLog(c, h);
    var more := Writes(c, SetRequest(key, value))[1..];
    FirstWrite(c, key, value);
    AppendUnstorable(c.log.bytes, op, EncodeAll(more));
    SameHistory(d.log.bytes, c.log.bytes);
    TakenByLog(c, key, value);
    StoredInFront(c, key, value);
  }

  lemma FirstWrite(c: Cache, key: Bytes, value: Bytes)
    requires c.log.Attached?
    ensures var ops := Writes(c, SetRequest(key, value));
            c.log.bytes + EncodeAll(ops) == c.log.bytes + Encode(Put(key, value)) + EncodeAll(ops[1..])
  {
    hide Encode, Has;
    var ops := Writes(c, SetRequest(key, value));
    assert ops[0] == Put(key, value);
    assert c.log.bytes + (Encode(ops[0]) + EncodeAll(ops[1..])) == c.log.bytes + Encode(ops[0]) + EncodeAll(ops[1..]);
  }

  lemma SameHistory(f: Bytes, g: Bytes)
    requires History(f) == History(g)
    ensures Recovered(f) == Recovered(g)
  {
  }

  lemma TakenByLog(c: Cache, key: Bytes, value: Bytes)
    requires !Failed(Set(c, key, value).cache.log)
    ensures Set(c, key, value).done
  {
    hide AppendTo;
  }

  /* ---------------- requests that the device takes ---------------- */

  lemma ApplyOne(m: Contents, a: Mutation)
    ensures ApplyAll(m, [a]) == Apply(m, a)
  {
    ApplyAllLast(m, [], a);
    assert [] + [a] == [a];
  }

  lemma ApplyTwo(m: Contents, a: Mutation, b: Mutation)
    ensures ApplyAll(m, [a, b]) == Apply(Apply(m, a), b)
  {
    ApplyAllLast(m, [a], b);
    ApplyOne(m, a);
    assert [a] + [b] == [a, b];
  }

  /** A request that meets no failure does to the contents what its records say, and hands the
      same to the replicator. */
  lemma ServeApplies(c: Cache, r: Request)
    requires Usable(c) && !Failed(Serve(c, r).log)
    ensures var d := Serve(c, r); var ops := Writes(c, r);
            View(d) == ApplyAll(View(c), ops) && d.outbox == c.outbox + ops
  {
    assert DistinctKeys(c.items);
    hide Usable, AppendTo, Position, DistinctKeys, View, Set;
    match r
    case SetRequest(k, v) => SetApplies(c, k, v);
    case GetRequest(k) => GetKeepsView(c, k); assert c.outbox + [] == c.outbox;
    case DelRequest(k) =>
      if Has(c, k) {
        ApplyOne(View(c), Remove(k));
        DropView(c, k, Del(c, k).cache);
      } else {
        assert c.outbox + [] == c.outbox;
      }
  }

  lemma DropView(c: Cache, k: Bytes, d: Cache)
    requires DistinctKeys(c.items) && Has(c, k)
    requires var p := Position(c.items, k); d.items == c.items[..p] + c.items[p + 1..]
    ensures View(d) == View(c) - {k}
  {
    hide AsContents, DistinctKeys;
    AsContentsDrop(c.items, Position(c.items, k));
  }

  lemma SetApplies(c: Cache, k: Bytes, v: Bytes)
    requires Usable(c) && !Failed(Set(c, k, v).cache.log)
    ensures var d := Set(c, k, v).cache; var ops := Writes(c, SetRequest(k, v));
            View(d) == ApplyAll(View(c), ops) && d.outbox == c.outbox + ops
  {
    assert c.capacity > 0 && !Failed(c.log) ==> |c.items| <= c.capacity;
    assert DistinctKeys(c.items) && !c.replaying;
    hide Usable, AppendTo, EvictAll, Position, DistinctKeys, AsContents, Touch;
    var op := Put(k, v);
    var a := AppendTo(c.log, op);
    ApplyOne(View(c), op);
    assert [op] + [] == [op];
    if Has(c, k) {
      TouchContents(c.items, Position(c.items, k), v);
    } else {
      FrontContents(c.items, k, v);
      var front := [Item(k, v)] + c.items;
      var c3 := c.(log := a.log, outbox := c.outbox + [op], items := front);
      EvictAllKeepsFront(c3, true);
      if c.capacity > 0 && |c.items| >= c.capacity {
        var victim := Remove(c.items[|c.items| - 1].key);
        EvictOne(c3);
        EvictOneHandsOver(c3);
        assert front[c.capacity] == c.items[|c.items| - 1];
        BackContents(front);
        ApplyTwo(View(c), op, victim);
        assert c.outbox + [op] + [victim] == c.outbox + ([op] + [victim]) && [op] + [victim] == [op, victim];
      }
    }
  }

  lemma EvictOneHandsOver(c: Cache)
    requires c.capacity > 0 && |c.items| == c.capacity + 1 && !Failed(EvictAll(c, true).log)
    ensures EvictAll(c, true).outbox == c.outbox + [Remove(c.items[c.capacity].key)]
  {
    hide AppendTo;
    var r := EvictLru(c, true);
    if r.done {
      assert EvictAll(r.cache, true) == r.cache;
    }
  }
}
