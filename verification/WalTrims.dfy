/** What an unlogged trim leaves behind. Entries that a start of the engine trims stay in its log,
    behind those it keeps, until somebody writes their keys again; a later start finds them. */
module WalTrims {
  import opened ByteStrings
  import opened KeyValue
  import opened Records
  import opened Recovery
  import opened WriteAheadLog
  import opened LruCache
  import opened WalRuns
  import opened WalWrites

  /** The list that a replay of the log builds, most recent write first. */
  function Replayed(bytes: Bytes, capacity: nat): seq<Item> {
    ReplayAll(Fresh(capacity), History(bytes)).items
  }

  /** How many entries of a replayed list a start keeps. */
  function Kept(capacity: nat, n: nat): nat {
    if capacity > 0 && n > capacity then capacity else n
  }

  /** The entries that a start on this log trims. */
  function Trimmed(bytes: Bytes, capacity: nat): seq<Item> {
    var all := Replayed(bytes, capacity);
    all[Kept(capacity, |all|)..]
  }

  /** What is left of a trimmed entry list after one more record: a put takes its key out. */
  function Without(rest: seq<Item>, op: Mutation): seq<Item> {
    var p := Position(rest, op.key);
    if op.Put? && p < |rest| then rest[..p] + rest[p + 1..] else rest
  }

  /** The entries of `rest` that nobody has written since. */
  function Unwritten(rest: seq<Item>, ops: seq<Mutation>): seq<Item>
    decreases ops
  {
    if ops == [] then rest else Unwritten(Without(rest, ops[0]), ops[1..])
  }

  /** The list is made of the contents `m` in front and of `rest` behind. */
  predicate Lists(all: seq<Item>, m: Contents, rest: seq<Item>) {
    DistinctKeys(all) && |m| <= |all| && AsContents(all[..|m|]) == m && all[|m|..] == rest
  }

  /* ---------------- one more record ---------------- */

  lemma DistinctParts(all: seq<Item>, n: nat)
    requires DistinctKeys(all) && n <= |all|
    ensures DistinctKeys(all[..n]) && DistinctKeys(all[n..])
    ensures |AsContents(all[..n])| == n
    ensures forall i :: n <= i < |all| ==> all[i].key !in AsContents(all[..n])
    ensures forall i :: 0 <= i < n ==> all[i].key in AsContents(all[..n])
  {
    var front := all[..n];
    AsContentsHolds(front);
    hide AsContents;
    forall i | n <= i < |all|
      ensures all[i].key !in AsContents(front)
    {
      assert !HasKey(front, all[i].key);
    }
    assert forall i :: 0 <= i < n ==> front[i].key == all[i].key;
  }

  lemma FoundAt(items: seq<Item>, p: nat)
    requires DistinctKeys(items) && p < |items|
    ensures Position(items, items[p].key) == p
  {
  }

  lemma NotFound(items: seq<Item>, k: Bytes)
    requires forall i :: 0 <= i < |items| ==> items[i].key != k
    ensures Position(items, k) == |items|
  {
  }

  /** Where a key stands in the whole list says whether it is in front or behind. */
  lemma PositionInParts(all: seq<Item>, m: Contents, rest: seq<Item>, k: Bytes)
    requires Lists(all, m, rest)
    ensures k in m <==> Position(all, k) < |m|
    ensures k in m ==> Position(rest, k) == |rest|
    ensures k !in m ==> Position(all, k) == |m| + Position(rest, k)
  {
    DistinctParts(all, |m|);
    if k in m {
      InFront(all, m, rest, k);
    } else {
      Behind(all, m, rest, k);
    }
  }

  lemma InFront(all: seq<Item>, m: Contents, rest: seq<Item>, k: Bytes)
    requires Lists(all, m, rest) && k in m
    ensures Position(all, k) < |m| && Position(rest, k) == |rest|
  {
    DistinctParts(all, |m|);
    AsContentsHolds(all[..|m|]);
    hide AsContents, Position;
    assert HasKey(all[..|m|], k);
    var i :| 0 <= i < |m| && all[..|m|][i].key == k;
    FoundAt(all, i);
    assert forall j :: 0 <= j < |rest| ==> rest[j] == all[|m| + j];
    NotFound(rest, k);
  }

  lemma Behind(all: seq<Item>, m: Contents, rest: seq<Item>, k: Bytes)
    requires Lists(all, m, rest) && k !in m
    ensures Position(all, k) == |m| + Position(rest, k)
  {
    DistinctParts(all, |m|);
    hide AsContents;
    var q := Position(rest, k);
    assert forall j :: 0 <= j < |rest| ==> rest[j] == all[|m| + j];
    if q < |rest| {
      FoundAt(all, |m| + q);
    } else {
      forall i | 0 <= i < |all|
        ensures all[i].key != k
      {
        if i >= |m| {
          assert all[i] == rest[i - |m|];
        }
      }
      NotFound(all, k);
    }
  }

  lemma PutInFront(all: seq<Item>, m: Contents, rest: seq<Item>, p: nat, v: Bytes)
    requires Lists(all, m, rest) && p < |m|
    ensures all[p].key in m && Lists(Touch(all, p, v), m[all[p].key := v], rest)
  {
    var n, k := |m|, all[p].key;
    DistinctParts(all, n);
    TouchContents(all, p, v);
    TouchContents(all[..n], p, v);
    hide AsContents, DistinctKeys;
    var t := Touch(all, p, v);
    assert m[k := v].Keys == m.Keys;
    assert t[..n] == Touch(all[..n], p, v);
    assert t[n..] == all[n..];
  }

  lemma PutBehind(all: seq<Item>, m: Contents, rest: seq<Item>, q: nat, v: Bytes)
    requires Lists(all, m, rest) && q < |rest|
    ensures var k := rest[q].key; k !in m && Lists(Touch(all, |m| + q, v), m[k := v], rest[..q] + rest[q + 1..])
  {
    var n, k := |m|, rest[q].key;
    DistinctParts(all, n);
    assert all[n + q] == rest[q];
    TouchContents(all, n + q, v);
    hide DistinctKeys, AsContents;
    InsertSize(m, k, v);
    TouchParts(all, n, q, v);
    AsContentsHead([Item(k, v)] + all[..n], Item(k, v), all[..n]);
  }

  lemma TouchParts(all: seq<Item>, n: nat, q: nat, v: Bytes)
    requires n + q < |all|
    ensures var t, rest := Touch(all, n + q, v), all[n..];
            t[..n + 1] == [Item(rest[q].key, v)] + all[..n] && t[n + 1..] == rest[..q] + rest[q + 1..]
  {
  }

  lemma PutNew(all: seq<Item>, m: Contents, rest: seq<Item>, k: Bytes, v: Bytes)
    requires Lists(all, m, rest) && k !in m && Position(all, k) == |all|
    ensures Lists([Item(k, v)] + all, m[k := v], rest)
  {
    var n := |m|;
    FrontContents(all, k, v);
    hide DistinctKeys;
    InsertSize(m, k, v);
    var t := [Item(k, v)] + all;
    assert t[..n + 1] == [Item(k, v)] + all[..n];
    AsContentsHead(t[..n + 1], Item(k, v), all[..n]);
    assert t[n + 1..] == all[n..];
  }

  lemma RemoveFromFront(all: seq<Item>, m: Contents, rest: seq<Item>, p: nat)
    requires Lists(all, m, rest) && p < |m|
    ensures all[p].key in m && Lists(all[..p] + all[p + 1..], m - {all[p].key}, rest)
  {
    var n, k := |m|, all[p].key;
    DistinctParts(all, n);
    DropDistinct(all, p);
    AsContentsDrop(all[..n], p);
    hide AsContents, DistinctKeys;
    InsertSize(m, k, []);
    DropParts(all, n, p);
  }

  lemma DropParts(all: seq<Item>, n: nat, p: nat)
    requires p < n <= |all|
    ensures var t := all[..p] + all[p + 1..];
            t[..n - 1] == all[..n][..p] + all[..n][p + 1..] && t[n - 1..] == all[n..]
  {
    var t := all[..p] + all[p + 1..];
    assert forall i :: 0 <= i < |t| ==> t[i] == all[if i < p then i else i + 1];
  }

  /** One more record in the log: a put moves its key to the front, a removal takes its key,
      which the engine had, from the front. */
  lemma ReplayOneLists(c: Cache, m: Contents, rest: seq<Item>, op: Mutation)
    requires Replaying(c) && Lists(c.items, m, rest) && (op.Remove? ==> op.key in m)
    ensures Replaying(ReplayOne(c, op)) && Lists(ReplayOne(c, op).items, Apply(m, op), Without(rest, op))
  {
    hide Lists, DistinctKeys, AsContents, View, Position, ReplayOne, Replaying;
    ReplayOneApplies(c, op);
    if op.Put? {
      ReplayPut(c, op.key, op.value);
      PutLists(c.items, m, rest, op.key, op.value);
    } else {
      RemoveLists(c, m, rest, op.key);
    }
  }

  /** What a replayed put does to the list. */
  function PutItems(all: seq<Item>, k: Bytes, v: Bytes): seq<Item> {
    var p := Position(all, k);
    if p < |all| then Touch(all, p, v) else [Item(k, v)] + all
  }

  lemma ReplayPut(c: Cache, k: Bytes, v: Bytes)
    requires Replaying(c)
    ensures ReplayOne(c, Put(k, v)).items == PutItems(c.items, k, v)
  {
    hide Position, Touch, DistinctKeys;
  }

  lemma PutLists(all: seq<Item>, m: Contents, rest: seq<Item>, k: Bytes, v: Bytes)
    requires Lists(all, m, rest)
    ensures Lists(PutItems(all, k, v), m[k := v], Without(rest, Put(k, v)))
  {
    hide Lists, Position, PutItems, Without;
    PositionInParts(all, m, rest, k);
    ListsParts(all, m, rest);
    if k in m {
      PutListsFront(all, m, rest, k, v);
    } else if Position(rest, k) < |rest| {
      PutListsBehind(all, m, rest, k, v);
    } else {
      PutListsNew(all, m, rest, k, v);
    }
  }

  lemma PutListsFront(all: seq<Item>, m: Contents, rest: seq<Item>, k: Bytes, v: Bytes)
    requires Lists(all, m, rest) && |all| == |m| + |rest| && Position(all, k) < |m| && Position(rest, k) == |rest|
    ensures Lists(PutItems(all, k, v), m[k := v], Without(rest, Put(k, v)))
  {
    hide Lists, Touch;
    PutInFront(all, m, rest, Position(all, k), v);
  }

  lemma PutListsBehind(all: seq<Item>, m: Contents, rest: seq<Item>, k: Bytes, v: Bytes)
    requires Lists(all, m, rest) && |all| == |m| + |rest|
    requires Position(rest, k) < |rest| && Position(all, k) == |m| + Position(rest, k)
    ensures Lists(PutItems(all, k, v), m[k := v], Without(rest, Put(k, v)))
  {
    hide Lists, Touch;
    PutBehind(all, m, rest, Position(rest, k), v);
  }

  lemma PutListsNew(all: seq<Item>, m: Contents, rest: seq<Item>, k: Bytes, v: Bytes)
    requires Lists(all, m, rest) && k !in m && Position(all, k) == |all| && Position(rest, k) == |rest|
    ensures Lists(PutItems(all, k, v), m[k := v], Without(rest, Put(k, v)))
  {
    hide Lists;
    PutNew(all, m, rest, k, v);
  }

  lemma ListsParts(all: seq<Item>, m: Contents, rest: seq<Item>)
    requires Lists(all, m, rest)
    ensures |all| == |m| + |rest|
  {
  }

  lemma RemoveLists(c: Cache, m: Contents, rest: seq<Item>, k: Bytes)
    requires Replaying(c) && Lists(c.items, m, rest) && k in m
    ensures Lists(ReplayOne(c, Remove(k)).items, m - {k}, rest)
  {
    hide Lists, DistinctKeys, AsContents, Position;
    PositionInParts(c.items, m, rest, k);
    ListsParts(c.items, m, rest);
    RemoveFromFront(c.items, m, rest, Position(c.items, k));
  }

  /** Removals are of keys that are there. */
  predicate Sensible(m: Contents, ops: seq<Mutation>)
    decreases ops
  {
    ops == [] || ((ops[0].Remove? ==> ops[0].key in m) && Sensible(Apply(m, ops[0]), ops[1..]))
  }

  lemma {:induction false} ReplayLists(c: Cache, m: Contents, rest: seq<Item>, ops: seq<Mutation>)
    requires Replaying(c) && Lists(c.items, m, rest) && Sensible(m, ops)
    ensures Replaying(ReplayAll(c, ops)) && Lists(ReplayAll(c, ops).items, ApplyAll(m, ops), Unwritten(rest, ops))
    decreases ops
  {
    hide Replaying, Lists, ReplayOne, Without, Apply;
    if ops != [] {
      ReplayOneLists(c, m, rest, ops[0]);
      ReplayLists(ReplayOne(c, ops[0]), Apply(m, ops[0]), Without(rest, ops[0]), ops[1..]);
    }
  }

  lemma {:induction false} ReplayAllConcat(c: Cache, a: seq<Mutation>, b: seq<Mutation>)
    ensures ReplayAll(c, a + b) == ReplayAll(ReplayAll(c, a), b)
    decreases a
  {
    hide ReplayOne;
    if a == [] {
      assert a + b == b;
    } else {
      assert (a + b)[1..] == a[1..] + b;
      ReplayAllConcat(ReplayOne(c, a[0]), a[1..], b);
    }
  }

  /** More records behind those of a log. */
  lemma ReplayedMore(f: Bytes, g: Bytes, capacity: nat, m: Contents, rest: seq<Item>, ops: seq<Mutation>)
    requires Lists(Replayed(f, capacity), m, rest) && Sensible(m, ops) && History(g) == History(f) + ops
    ensures Lists(Replayed(g, capacity), ApplyAll(m, ops), Unwritten(rest, ops))
  {
    hide History, Lists, Sensible;
    var c := ReplayAll(Fresh(capacity), History(f));
    ReplayApplies(Fresh(capacity), History(f));
    ReplayAllConcat(Fresh(capacity), History(f), ops);
    ReplayLists(c, m, rest, ops);
  }

  /** The entries whose keys no record since has put. */
  lemma {:induction false} UnwrittenMeans(rest: seq<Item>, ops: seq<Mutation>, item: Item)
    requires DistinctKeys(rest)
    ensures item in Unwritten(rest, ops) <==> item in rest && forall op :: op in ops && op.Put? ==> op.key != item.key
    ensures DistinctKeys(Unwritten(rest, ops))
    decreases ops
  {
    if ops != [] {
      WithoutMeans(rest, ops[0], item);
      hide Without, DistinctKeys;
      UnwrittenMeans(Without(rest, ops[0]), ops[1..], item);
      assert ops == [ops[0]] + ops[1..];
    }
  }

  lemma WithoutMeans(rest: seq<Item>, op: Mutation, item: Item)
    requires DistinctKeys(rest)
    ensures item in Without(rest, op) <==> item in rest && (op.Put? ==> op.key != item.key)
    ensures DistinctKeys(Without(rest, op))
  {
    var p := Position(rest, op.key);
    if op.Put? && p < |rest| {
      DropDistinct(rest, p);
      DropMeans(rest, p, item);
    } else if op.Put? && item in rest {
      var i :| 0 <= i < |rest| && rest[i] == item;
    }
  }

  lemma DropMeans(rest: seq<Item>, p: nat, item: Item)
    requires DistinctKeys(rest) && p < |rest|
    ensures item in rest[..p] + rest[p + 1..] <==> item in rest && item.key != rest[p].key
  {
    var t := rest[..p] + rest[p + 1..];
    if item in t {
      var i :| 0 <= i < |t| && t[i] == item;
      assert item == rest[if i < p then i else i + 1];
    }
    if item in rest && item.key != rest[p].key {
      var i :| 0 <= i < |rest| && rest[i] == item;
      assert item == t[if i < p then i else i - 1];
    }
  }

  /* ---------------- what a start serves ---------------- */

  /** The trimmed entries that come back at a start: as many as there is room for. */
  function Returning(rest: seq<Item>, n: nat, capacity: nat): seq<Item> {
    if capacity == 0 || n + |rest| <= capacity then rest
    else if n >= capacity then []
    else rest[..capacity - n]
  }

  lemma {:induction false} ContentsConcat(a: seq<Item>, b: seq<Item>)
    requires DistinctKeys(a + b)
    ensures AsContents(a + b) == AsContents(a) + AsContents(b)
    decreases a
  {
    if a == [] {
      assert a + b == b;
      assert map[] + AsContents(b) == AsContents(b);
    } else {
      HeadFresh(a + b);
      assert (a + b)[1..] == a[1..] + b && (a + b)[0] == a[0];
      hide DistinctKeys;
      ContentsConcat(a[1..], b);
      var x, y := AsContents(a[1..]), AsContents(b);
      assert (x + y)[a[0].key := a[0].value] == x[a[0].key := a[0].value] + y;
    }
  }

  lemma LoadIsFront(f: Bytes, capacity: nat, room: nat)
    ensures var all := Replayed(f, capacity); var c := Load(f, capacity, room);
            && c == Cache(all[..Kept(capacity, |all|)], capacity, false, Attached(f, room, true), [])
            && DistinctKeys(all) && AsContents(all) == Recovered(f)
  {
    hide Load, ReplayAll, History, AsContents, Recovered;
    LoadedItems(f, capacity, room);
  }

  lemma ContentsOfParts(all: seq<Item>, a: nat, b: nat)
    requires DistinctKeys(all) && a <= b <= |all|
    ensures AsContents(all[..b]) == AsContents(all[..a]) + AsContents(all[a..b]) && DistinctKeys(all[a..b])
    ensures forall i :: 0 <= i < b - a ==> all[a..b][i].key !in AsContents(all[..a])
  {
    DistinctParts(all, a);
    assert DistinctKeys(all[..b]) && DistinctKeys(all[a..b]);
    hide AsContents, DistinctKeys;
    assert all[..b] == all[..a] + all[a..b];
    ContentsConcat(all[..a], all[a..b]);
  }

  lemma FrontAndBack(all: seq<Item>, m: Contents, rest: seq<Item>, capacity: nat)
    requires Lists(all, m, rest) && (capacity > 0 ==> |m| <= capacity)
    ensures var back := Returning(rest, |m|, capacity);
            && AsContents(all[..Kept(capacity, |all|)]) == m + AsContents(back)
            && DistinctKeys(back) && forall i :: 0 <= i < |back| ==> back[i].key !in m
  {
    hide AsContents, DistinctKeys;
    ReturningPart(all, |m|, capacity);
    ContentsOfParts(all, |m|, Kept(capacity, |all|));
  }

  lemma ReturningPart(all: seq<Item>, m: nat, capacity: nat)
    requires m <= |all| && (capacity > 0 ==> m <= capacity)
    ensures m <= Kept(capacity, |all|) <= |all| && Returning(all[m..], m, capacity) == all[m..Kept(capacity, |all|)]
  {
  }

  /** A start on a log that lists `m`, which fits, and behind it `rest`: all of `m`, and what of
      `rest` there is room for. */
  lemma LoadLists(f: Bytes, capacity: nat, room: nat, m: Contents, rest: seq<Item>)
    requires Lists(Replayed(f, capacity), m, rest) && (capacity > 0 ==> |m| <= capacity)
    ensures var back := Returning(rest, |m|, capacity);
            && View(Load(f, capacity, room)) == m + AsContents(back)
            && DistinctKeys(back) && forall i :: 0 <= i < |back| ==> back[i].key !in m
  {
    hide Load, Replayed, AsContents, DistinctKeys, Returning, Kept, Recovered;
    LoadIsFront(f, capacity, room);
    FrontAndBack(Replayed(f, capacity), m, rest, capacity);
  }

  /* ---------------- runs ---------------- */

  /** An engine in service on a good log that lists its contents and, behind them, `rest`. */
  predicate Tracks(c: Cache, rest: seq<Item>) {
    && Usable(c) && c.log.Attached? && c.log.ok && Clean(c.log.bytes)
    && Lists(Replayed(c.log.bytes, c.capacity), View(c), rest)
  }

  lemma WritesSensible(c: Cache, r: Request)
    requires Usable(c)
    ensures Sensible(View(c), Writes(c, r))
  {
    HasIsContents(c, r.key);
    if c.items != [] { StoredBack(c); }
    hide AsContents, DistinctKeys, Position, StorableItems;
    var ops := Writes(c, r);
    if |ops| == 2 {
      assert ops == [ops[0], ops[1]];
      SensibleTwo(View(c), ops[0], ops[1]);
    } else if |ops| == 1 {
      assert ops[1..] == [];
    }
  }

  lemma SensibleTwo(m: Contents, a: Mutation, b: Mutation)
    requires a.Put? && b.key in m
    ensures Sensible(m, [a, b])
  {
    assert [a, b][1..] == [b] && [b][1..] == [];
    assert Sensible(Apply(m, a), [b]);
  }

  lemma ServeTracks(c: Cache, rest: seq<Item>, r: Request)
    requires Tracks(c, rest) && Acceptable(r) && !Failed(Serve(c, r).log)
    ensures Tracks(Serve(c, r), Unwritten(rest, Writes(c, r)))
  {
    hide Usable, Serve, Writes, Clean, Replayed, Lists, Acceptable, Shaped, View, EncodeAll, History, Sensible;
    var d, ops := Serve(c, r), Writes(c, r);
    ServeUsable(c, r);
    ServeWrites(c, r);
    ServeApplies(c, r);
    WritesShaped(c, r);
    WritesSensible(c, r);
    assert forall op :: op in ops ==> Storable(op) by { ShapedStorable(View(c), c.capacity, ops); }
    AppendAll(c.log.bytes, ops);
    ReplayedMore(c.log.bytes, d.log.bytes, c.capacity, View(c), rest, ops);
  }

  lemma ShapedStorable(m: Contents, capacity: nat, ops: seq<Mutation>)
    requires Shaped(m, capacity, ops)
    ensures forall op :: op in ops ==> Storable(op)
  {
  }

  lemma {:induction false} UnwrittenConcat(rest: seq<Item>, a: seq<Mutation>, b: seq<Mutation>)
    ensures Unwritten(rest, a + b) == Unwritten(Unwritten(rest, a), b)
    decreases a
  {
    hide Without;
    if a == [] {
      assert a + b == b;
    } else {
      assert (a + b)[1..] == a[1..] + b;
      UnwrittenConcat(Without(rest, a[0]), a[1..], b);
    }
  }

  lemma {:induction false} FailureLasts(c: Cache, rs: seq<Request>)
    requires Failed(c.log) && Usable(c) && forall r :: r in rs ==> Acceptable(r)
    ensures Failed(ServeAll(c, rs).log)
    decreases rs
  {
    hide Serve, Acceptable;
    if rs != [] {
      FailureIsSticky(c, rs[0]);
      ServeUsable(c, rs[0]);
      FailureLasts(Serve(c, rs[0]), rs[1..]);
    }
  }

  lemma {:induction false} RunTracks(c: Cache, rest: seq<Item>, rs: seq<Request>)
    requires Tracks(c, rest) && (forall r :: r in rs ==> Acceptable(r)) && !Failed(ServeAll(c, rs).log)
    ensures var d := ServeAll(c, rs);
            && d.capacity == c.capacity && c.outbox <= d.outbox
            && Tracks(d, Unwritten(rest, d.outbox[|c.outbox|..]))
    decreases rs
  {
    hide Usable, Serve, Writes, Clean, Replayed, Lists, Acceptable, View, Unwritten;
    if rs == [] {
      assert c.outbox[|c.outbox|..] == [];
      NothingWritten(rest);
    } else {
      var e, ops := Serve(c, rs[0]), Writes(c, rs[0]);
      ServeUsable(c, rs[0]);
      if Failed(e.log) { FailureLasts(e, rs[1..]); }
      ServeTracks(c, rest, rs[0]);
      ServeApplies(c, rs[0]);
      RunTracks(e, Unwritten(rest, ops), rs[1..]);
      var d := ServeAll(c, rs);
      assert d.outbox[|c.outbox|..] == ops + d.outbox[|e.outbox|..];
      UnwrittenConcat(rest, ops, d.outbox[|e.outbox|..]);
    }
  }

  lemma NothingWritten(rest: seq<Item>)
    ensures Unwritten(rest, []) == rest
  {
  }

  lemma {:induction false} NothingToWrite(ops: seq<Mutation>)
    ensures Unwritten([], ops) == []
    decreases ops
  {
    if ops != [] {
      NothingToWrite(ops[1..]);
    }
  }

  /** An engine just started on a clean log: the trimmed entries stand behind its contents. */
  lemma LoadTracks(f: Bytes, capacity: nat, room: nat)
    requires Clean(f)
    ensures Tracks(Load(f, capacity, room), Trimmed(f, capacity)) && Load(f, capacity, room).outbox == []
  {
    hide Load, Replayed, Clean, Recovered, AsContents, DistinctKeys, FieldOk;
    LoadIsFront(f, capacity, room);
    RecoveredStorable(f);
    var all := Replayed(f, capacity);
    StoredList(all, Recovered(f));
    FrontIsUsable(all, Kept(capacity, |all|));
    DistinctParts(all, Kept(capacity, |all|));
  }

  lemma StoredList(all: seq<Item>, m: Contents)
    requires DistinctKeys(all) && AsContents(all) == m && AllStorable(m)
    ensures StorableItems(all)
  {
    AsContentsHolds(all);
  }

  /** What the next start serves, for every clean log, capacity and run of requests that meets no
      failure: the contents that were live, and with them those entries trimmed by the last start
      that nobody has written since, as many as there is room for. So the start is exact if and
      only if there is no such entry or no such room. */
  lemma TrimmedEntriesReturn(f: Bytes, capacity: nat, room: nat, rs: seq<Request>, room': nat)
    requires Clean(f) && forall r :: r in rs ==> Acceptable(r)
    requires !Failed(ServeAll(Load(f, capacity, room), rs).log)
    ensures var c := ServeAll(Load(f, capacity, room), rs);
            var rest := Unwritten(Trimmed(f, capacity), c.outbox);
            && c.log.Attached?
            && View(Load(c.log.bytes, capacity, room')) == View(c) + AsContents(Returning(rest, |c.items|, capacity))
            && (View(Load(c.log.bytes, capacity, room')) == View(c) <==> rest == [] || |c.items| == capacity)
  {
    hide Load, Replayed, Clean, Recovered, AsContents, Acceptable, Trimmed, Unwritten, ServeAll, Lists;
    LoadTracks(f, capacity, room);
    var c0 := Load(f, capacity, room);
    LoadIsFront(f, capacity, room);
    RunTracks(c0, Trimmed(f, capacity), rs);
    var c := ServeAll(c0, rs);
    assert c.outbox[|c0.outbox|..] == c.outbox;
    var rest := Unwritten(Trimmed(f, capacity), c.outbox);
    if capacity == 0 {
      NoTrim(f);
      NothingToWrite(c.outbox);
    }
    ListedSize(c);
    LoadLists(c.log.bytes, capacity, room', View(c), rest);
    AddNothing(View(c), Returning(rest, |c.items|, capacity));
  }

  lemma NoTrim(f: Bytes)
    ensures Trimmed(f, 0) == []
  {
  }

  lemma AddNothing(m: Contents, back: seq<Item>)
    requires DistinctKeys(back) && forall i :: 0 <= i < |back| ==> back[i].key !in m
    ensures m + AsContents(back) == m <==> back == []
  {
    AsContentsHolds(back);
    if back != [] {
      assert back[0].key in m + AsContents(back);
    } else {
      assert m + map[] == m;
    }
  }
}
