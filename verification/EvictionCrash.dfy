/** The input on which a restart of the in-memory engine is not exact: a crash between the record
    of an insert and the record of its eviction, after a read has moved the least recently
    written key away from the end of the list. */
module EvictionCrash {
  import opened ByteStrings
  import opened KeyValue
  import opened Records
  import opened Recovery
  import opened WriteAheadLog
  import opened LruCache
  import opened WalRuns
  import opened WalWrites
  import opened WalTrims
  import opened WalLifetimes

  lemma ServeInsert(c: Cache, k: Bytes, v: Bytes)
    requires !Has(c, k) && !c.replaying && |c.items| < c.capacity
    requires c.log.Attached? && c.log.ok && |Encode(Put(k, v))| < c.log.room
    ensures var e := Encode(Put(k, v));
            Serve(c, SetRequest(k, v)) == Cache([Item(k, v)] + c.items, c.capacity, false,
                                                Attached(c.log.bytes + e, c.log.room - |e|, true), c.outbox + [Put(k, v)])
  {
    hide Encode;
  }

  lemma EmptyLoad(capacity: nat, room: nat)
    ensures Load([], capacity, room) == Cache([], capacity, false, Attached([], room, true), [])
  {
    EmptyFile();
    hide History;
  }

  /** The engine after SET a, SET b, GET a, on a cache for two keys. */
  function Reordered(a: Item, b: Item, room: nat): Cache
    requires |Encode(Put(a.key, a.value))| + |Encode(Put(b.key, b.value))| < room
  {
    var x, y := Put(a.key, a.value), Put(b.key, b.value);
    Cache([a, b], 2, false, Attached(Encode(x) + Encode(y), room - |Encode(x)| - |Encode(y)|, true), [x, y])
  }

  /** A request that the device takes moves the machine from one good log to the next. */
  lemma GoodStep(c: Cache, r: Request, d: Cache)
    requires c.log.Attached? && c.log.ok && Acceptable(r) && Serve(c, r) == d && d.log.Attached? && d.log.ok
    ensures var n := Node(true, c, View(c), c.log.bytes, [], 0);
            Enabled(n, Serving(r)) && Next(n, Serving(r)) == Node(true, d, View(d), d.log.bytes, [], 0)
  {
    hide Serve, Acceptable, Encode;
  }

  /** SET a, SET b, GET a, then SET k up to the end of its first record. */
  function Steps(a: Item, b: Item, k: Item): seq<Step> {
    [Serving(SetRequest(a.key, a.value)), Serving(SetRequest(b.key, b.value)), Serving(GetRequest(a.key)),
     Crash(SetRequest(k.key, k.value), |Encode(Put(k.key, k.value))|)]
  }

  lemma ServeReordered(a: Item, b: Item, room: nat)
    requires a.key != b.key && |Encode(Put(a.key, a.value))| + |Encode(Put(b.key, b.value))| < room
    ensures var c0 := Load([], 2, room);
            var c1 := Serve(c0, SetRequest(a.key, a.value));
            var c2 := Serve(c1, SetRequest(b.key, b.value));
            && c0.log == Attached([], room, true)
            && c1.log.Attached? && c1.log.ok && c2.log.Attached? && c2.log.ok
            && Serve(c2, GetRequest(a.key)) == Reordered(a, b, room)
  {
    hide Encode, Load, Set;
    EmptyLoad(2, room);
    var c0 := Load([], 2, room);
    ServeInsert(c0, a.key, a.value);
    var c1 := Serve(c0, SetRequest(a.key, a.value));
    assert c1.items == [a];
    ServeInsert(c1, b.key, b.value);
    var c2 := Serve(c1, SetRequest(b.key, b.value));
    assert c2.items == [b, a];
    assert Position([b, a], a.key) == 1 && Touch([b, a], 1, a.value) == [a, b];
    var x, y := Put(a.key, a.value), Put(b.key, b.value);
    assert [] + Encode(x) == Encode(x) && [] + [x] == [x] && [x] + [y] == [x, y];
  }

  /** Where that leaves the machine. */
  function Caught(a: Item, b: Item, k: Item, room: nat): Node
    requires |Encode(Put(a.key, a.value))| + |Encode(Put(b.key, b.value))| < room
  {
    var c := Reordered(a, b, room);
    Node(false, c, View(c), c.log.bytes, Writes(c, SetRequest(k.key, k.value)), |Encode(Put(k.key, k.value))|)
  }

  lemma ReachesCaught(a: Item, b: Item, k: Item, room: nat)
    requires a.key != b.key && a.key != k.key && b.key != k.key
    requires Storable(Put(a.key, a.value)) && Storable(Put(b.key, b.value)) && Storable(Put(k.key, k.value))
    requires |Encode(Put(a.key, a.value))| + |Encode(Put(b.key, b.value))| < room
    ensures IsRun(Started([], 2, room), Steps(a, b, k))
    ensures After(Started([], 2, room), Steps(a, b, k)) == Caught(a, b, k, room)
  {
    hide Encode, Load, Serve, History;
    EmptyFile();
    ServeReordered(a, b, room);
    var r1, r2, r3 := SetRequest(a.key, a.value), SetRequest(b.key, b.value), GetRequest(a.key);
    var c0 := Load([], 2, room);
    var c1 := Serve(c0, r1);
    var c2 := Serve(c1, r2);
    var c3 := Serve(c2, r3);
    GoodStep(c0, r1, c1);
    GoodStep(c1, r2, c2);
    GoodStep(c2, r3, c3);
    FirstRecordFits(c3, k);
    hide Next, Enabled;
    var n3 := Node(true, c3, View(c3), c3.log.bytes, [], 0);
    var s := Steps(a, b, k);
    assert s[1..] == [s[1], s[2], s[3]] && s[1..][1..] == [s[2], s[3]] && s[1..][1..][1..] == [s[3]];
    LastStep(n3, s[3]);
    LastButOne(Node(true, c2, View(c2), c2.log.bytes, [], 0), s[2], s[3]);
  }

  lemma FirstRecordFits(c: Cache, k: Item)
    requires c.log.Attached? && c.log.ok && Storable(Put(k.key, k.value))
    ensures var r, n := SetRequest(k.key, k.value), |Encode(Put(k.key, k.value))|;
            && Enabled(Node(true, c, View(c), c.log.bytes, [], 0), Crash(r, n))
            && Next(Node(true, c, View(c), c.log.bytes, [], 0), Crash(r, n)) == Node(false, c, View(c), c.log.bytes, Writes(c, r), n)
  {
    hide Encode, Has;
    var z := Put(k.key, k.value);
    EncodeOne(z);
    if c.items != [] {
      EncodeTwo(z, Remove(c.items[|c.items| - 1].key));
    }
    assert [z] + [] == [z];
  }

  lemma LastStep(d: Node, step: Step)
    requires Enabled(d, step)
    ensures IsRun(d, [step]) && After(d, [step]) == Next(d, step)
  {
    hide Enabled, Next;
    assert [step][1..] == [];
  }

  lemma LastButOne(d: Node, step: Step, last: Step)
    requires Enabled(d, step) && Enabled(Next(d, step), last)
    ensures IsRun(d, [step, last]) && After(d, [step, last]) == Next(Next(d, step), last)
  {
    hide Enabled, Next;
    assert [step, last][1..] == [last];
    LastStep(Next(d, step), last);
  }

  /** Its log, and the list that a replay builds from it. */
  lemma ReorderedLog(a: Item, b: Item)
    requires a.key != b.key && Storable(Put(a.key, a.value)) && Storable(Put(b.key, b.value))
    ensures var f := Encode(Put(a.key, a.value)) + Encode(Put(b.key, b.value));
            Clean(f) && Replayed(f, 2) == [b, a]
  {
    var x, y := Put(a.key, a.value), Put(b.key, b.value);
    var f := Encode(x) + Encode(y);
    assert History(f) == [x, y] && Clean(f) by {
      hide Encode, History, Clean;
      EmptyFile();
      AppendWhole([], x);
      assert [] + Encode(x) == Encode(x) && [] + [x] == [x] && [x] + [y] == [x, y];
      AppendWhole(Encode(x), y);
    }
    hide Encode, History, Clean;
    assert ReplayAll(Fresh(2), [x, y]).items == [b, a] by {
      assert [x, y][1..] == [y] && [y][1..] == [];
      var c1 := ReplayOne(Fresh(2), x);
      assert c1.items == [a] by { assert [a] + [] == [a]; }
      var c2 := ReplayOne(c1, y);
      assert c2.items == [b] + [a];
      assert ReplayAll(c2, []) == c2;
      assert ReplayAll(c1, [y]) == ReplayAll(c2, []);
    }
  }

  lemma AsContentsTwo(a: Item, b: Item)
    requires a.key != b.key
    ensures AsContents([a, b]) == map[a.key := a.value, b.key := b.value] && DistinctKeys([a, b])
  {
    assert [a, b][1..] == [b] && [b][1..] == [];
    assert AsContents([b]) == map[b.key := b.value] by { assert AsContents([]) == map[]; }
  }

  lemma ListsTwo(a: Item, b: Item)
    requires a.key != b.key
    ensures Lists([b, a], map[a.key := a.value, b.key := b.value], [])
  {
    AsContentsTwo(b, a);
    var m := map[a.key := a.value, b.key := b.value];
    assert m == map[b.key := b.value, a.key := a.value];
    assert m.Keys == {a.key, b.key} && |m.Keys| == 2;
    assert [b, a][..2] == [b, a] && [b, a][2..] == [];
  }

  /** What the crash leaves in the log: both keys, and k in front of them. */
  lemma CaughtFile(a: Item, b: Item, k: Item, room: nat)
    requires a.key != b.key && a.key != k.key && b.key != k.key
    requires Storable(Put(a.key, a.value)) && Storable(Put(b.key, b.value)) && Storable(Put(k.key, k.value))
    requires |Encode(Put(a.key, a.value))| + |Encode(Put(b.key, b.value))| < room
    ensures var d := Caught(a, b, k, room);
            && d.cut <= |EncodeAll(d.writes)| && d.writes == [Put(k.key, k.value), Remove(b.key)]
            && Clean(d.base) && Replayed(d.base, 2) == [b, a]
            && Clean(File(d)) && History(File(d)) == History(d.base) + [Put(k.key, k.value)]
  {
    hide Encode, History, Clean, EncodeAll, Replayed;
    var c := Reordered(a, b, room);
    var d, z, g := Caught(a, b, k, room), Put(k.key, k.value), Remove(b.key);
    assert d.writes == [z] + [g];
    ReorderedLog(a, b);
    EncodeTwo(z, g);
    assert (Encode(z) + Encode(g))[..|Encode(z)|] == Encode(z);
    AppendWhole(d.base, z);
  }

  /** The input: on a cache for two keys, SET a, SET b, GET a, SET k, killed when the insert is
      written and the removal of b is not. The restart serves k and b, which is neither what
      clients were told of nor what the finished request gives: b was to go, and a goes. */
  lemma CrashBetweenAppends(a: Item, b: Item, k: Item, room: nat, room': nat)
    requires a.key != b.key && a.key != k.key && b.key != k.key
    requires Storable(Put(a.key, a.value)) && Storable(Put(b.key, b.value)) && Storable(Put(k.key, k.value))
    requires |Encode(Put(a.key, a.value))| + |Encode(Put(b.key, b.value))| < room
    ensures var d := Caught(a, b, k, room);
            && d.cut <= |EncodeAll(d.writes)|
            && d.writes == [Put(k.key, k.value), Remove(b.key)]
            && View(d.cache) == map[a.key := a.value, b.key := b.value]
            && Finished(d) == map[k.key := k.value, a.key := a.value]
            && Served(d, room') == map[k.key := k.value, b.key := b.value]
  {
    CaughtFile(a, b, k, room);
    CaughtParts(a, b, k, room);
    ListsTwo(a, b);
    ThreeKeys(a, b, k);
    hide Encode, History, Clean, Load, EncodeAll, Replayed, Lists, AsContents, Caught, File, View;
    var d := Caught(a, b, k, room);
    var m := map[a.key := a.value, b.key := b.value];
    InterruptedInsert(d.base, File(d), 2, room', m, [], k.key, k.value);
    ApplyTwo(m, d.writes[0], d.writes[1]);
  }

  lemma CaughtParts(a: Item, b: Item, k: Item, room: nat)
    requires a.key != b.key && |Encode(Put(a.key, a.value))| + |Encode(Put(b.key, b.value))| < room
    ensures var d := Caught(a, b, k, room); var m := map[a.key := a.value, b.key := b.value];
            d.cache.capacity == 2 && View(d.cache) == m && d.before == m
  {
    hide Encode;
    AsContentsTwo(a, b);
  }

  lemma ThreeKeys(a: Item, b: Item, k: Item)
    requires a.key != b.key && a.key != k.key && b.key != k.key
    ensures var m := map[a.key := a.value, b.key := b.value];
            && |m| == 2 && k.key !in m
            && m[k.key := k.value] - {b.key} == map[k.key := k.value, a.key := a.value]
            && (m - {a.key})[k.key := k.value] == map[k.key := k.value, b.key := b.value]
  {
    var m := map[a.key := a.value, b.key := b.value];
    assert m.Keys == {a.key, b.key} && |m.Keys| == 2;
  }

  lemma CaughtReplay(a: Item, b: Item, k: Item, room: nat)
    requires a.key != b.key && a.key != k.key && b.key != k.key
    requires Storable(Put(a.key, a.value)) && Storable(Put(b.key, b.value)) && Storable(Put(k.key, k.value))
    requires |Encode(Put(a.key, a.value))| + |Encode(Put(b.key, b.value))| < room
    requires Caught(a, b, k, room).cut <= |EncodeAll(Caught(a, b, k, room).writes)|
    ensures Replayed(File(Caught(a, b, k, room)), 2) == [k, b, a]
    ensures Trimmed(File(Caught(a, b, k, room)), 2) == [a]
  {
    CaughtFile(a, b, k, room);
    hide Encode, Clean, EncodeAll, History, Caught, File;
    var d := Caught(a, b, k, room);
    ReplayedNew(d.base, File(d), 2, k);
    assert [k] + [b, a] == [k, b, a] && [k, b, a][2..] == [a];
  }

  lemma ReplayedNew(f: Bytes, g: Bytes, capacity: nat, k: Item)
    requires History(g) == History(f) + [Put(k.key, k.value)]
    requires forall i :: 0 <= i < |Replayed(f, capacity)| ==> Replayed(f, capacity)[i].key != k.key
    ensures Replayed(g, capacity) == [k] + Replayed(f, capacity)
  {
    NotFound(Replayed(f, capacity), k.key);
    hide History, Replaying, ReplayOne, Position;
    var c, op := ReplayAll(Fresh(capacity), History(f)), Put(k.key, k.value);
    FreshReplays(capacity);
    ReplayApplies(Fresh(capacity), History(f));
    ReplayAllConcat(Fresh(capacity), History(f), [op]);
    assert ReplayAll(c, [op]) == ReplayOne(c, op) by { assert [op][1..] == []; }
    ReplayPut(c, k.key, k.value);
  }

  /** And what went is not gone: the trim is not in the log. After DEL k the engine serves b
      alone, and its next restart serves a again, by `TrimmedEntriesReturn`. */
  lemma TrimmedKeyReturns(a: Item, b: Item, k: Item, room: nat, room': nat, room'': nat)
    requires a.key != b.key && a.key != k.key && b.key != k.key
    requires Storable(Put(a.key, a.value)) && Storable(Put(b.key, b.value)) && Storable(Put(k.key, k.value))
    requires |Encode(Put(a.key, a.value))| + |Encode(Put(b.key, b.value))| < room
    requires |Encode(Remove(k.key))| < room' && Caught(a, b, k, room).cut <= |EncodeAll(Caught(a, b, k, room).writes)|
    ensures Enabled(Caught(a, b, k, room), Restart(room'))
    ensures var c := ServeAll(Load(File(Caught(a, b, k, room)), 2, room'), [DelRequest(k.key)]);
            && View(c) == map[b.key := b.value] && c.log.Attached? && c.log.ok
            && View(Load(c.log.bytes, 2, room'')) == map[a.key := a.value, b.key := b.value]
  {
    hide Encode, Load, EncodeAll, Caught, Clean, File, Enabled, Replayed, Trimmed, ServeAll, View, History;
    CaughtFile(a, b, k, room);
    CaughtReplay(a, b, k, room);
    CaughtRestarts(a, b, k, room, room');
    AfterTheTrim(File(Caught(a, b, k, room)), a, b, k, room', room'');
  }

  lemma CaughtRestarts(a: Item, b: Item, k: Item, room: nat, room': nat)
    requires |Encode(Put(a.key, a.value))| + |Encode(Put(b.key, b.value))| < room
    requires var d := Caught(a, b, k, room); d.cut <= |EncodeAll(d.writes)| && Clean(File(d))
    ensures Enabled(Caught(a, b, k, room), Restart(room'))
  {
    hide Encode, EncodeAll, Clean, Writes, View;
  }

  lemma AfterTheTrim(f: Bytes, a: Item, b: Item, k: Item, room: nat, room': nat)
    requires Clean(f) && Replayed(f, 2) == [k, b, a] && Trimmed(f, 2) == [a] && a.key != b.key && |Encode(Remove(k.key))| < room
    ensures var c := ServeAll(Load(f, 2, room), [DelRequest(k.key)]);
            && View(c) == map[b.key := b.value] && c.log.Attached? && c.log.ok
            && View(Load(c.log.bytes, 2, room')) == map[a.key := a.value, b.key := b.value]
  {
    hide Encode, Load, Clean, Replayed, Trimmed, ServeAll, View, Recovered, AsContents;
    LoadIsFront(f, 2, room);
    var c0 := Load(f, 2, room);
    assert [k, b, a][..2] == [k, b];
    DeleteFirst(c0, k, b);
    var rs := [DelRequest(k.key)];
    assert forall r :: r in rs ==> Acceptable(r);
    TrimmedEntriesReturn(f, 2, room, rs, room');
    assert Unwritten([a], [Remove(k.key)]) == [a] by { assert [Remove(k.key)][1..] == []; }
    AsContentsOne(a);
    assert map[b.key := b.value] + map[a.key := a.value] == map[a.key := a.value, b.key := b.value];
  }

  lemma AsContentsOne(a: Item)
    ensures AsContents([a]) == map[a.key := a.value]
  {
    assert [a][1..] == [] && AsContents([]) == map[];
  }

  lemma DeleteFirst(c: Cache, k: Item, b: Item)
    requires c.items == [k, b] && c.outbox == [] && c.log.Attached? && c.log.ok && |Encode(Remove(k.key))| < c.log.room
    ensures var d := ServeAll(c, [DelRequest(k.key)]);
            && d.items == [b] && d.outbox == [Remove(k.key)] && d.log.Attached? && d.log.ok
            && View(d) == map[b.key := b.value]
  {
    hide Encode;
    var d := Serve(c, DelRequest(k.key));
    assert Position(c.items, k.key) == 0;
    assert [k, b][..0] + [k, b][1..] == [b];
    AsContentsOne(b);
    assert [] + [Remove(k.key)] == [Remove(k.key)];
    assert ServeAll(c, [DelRequest(k.key)]) == ServeAll(d, []) by { assert [DelRequest(k.key)][1..] == []; }
  }
}
