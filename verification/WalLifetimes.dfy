/** Whole lifetimes of the in-memory engine on its log: requests, a crash after any byte of either
    record that a request appends, failing devices, kills, and restarts on any log that ends at a
    record boundary, whether or not it fits. */
module WalLifetimes {
  import opened ByteStrings
  import opened KeyValue
  import opened Records
  import opened Recovery
  import opened WriteAheadLog
  import opened LruCache
  import opened WalRuns
  import opened WalWrites
  import opened WalTrims
  import LruClock

  /** `cache` is the engine, kept after it went down as what its clients were told. The log file
      is `base` and the first `cut` bytes of the records `writes` of the request, if any, in which
      a crash or a failure fell; `before` is the contents before that request. */
  datatype Node = Node(up: bool, cache: Cache, before: Contents, base: Bytes, writes: seq<Mutation>, cut: nat)

  datatype Step =
    | Serving(r: Request)                // completed or refused, as the device has it
    | Crash(r: Request, bytes: nat)      // after `bytes` bytes of what the request appends
    | Kill                               // between requests
    | Restart(room: nat)                 // on a device that takes `room` more bytes

  function File(d: Node): Bytes
    requires d.cut <= |EncodeAll(d.writes)|
  {
    d.base + EncodeAll(d.writes)[..d.cut]
  }

  predicate Enabled(d: Node, step: Step) {
    && d.cache.log.Attached? && d.cut <= |EncodeAll(d.writes)|
    && match step
       case Serving(r) => d.up && Acceptable(r)
       case Crash(r, n) => d.up && d.cache.log.ok && Acceptable(r) && n <= |EncodeAll(Writes(d.cache, r))|
       case Kill => d.up
       case Restart(_) => !d.up && Clean(File(d))
  }

  function Grown(before: Log, after: Log): nat
  {
    if before.Attached? && after.Attached? && |after.bytes| >= |before.bytes|
    then |after.bytes| - |before.bytes| else 0
  }

  function Started(bytes: Bytes, capacity: nat, room: nat): Node {
    var c := Load(bytes, capacity, room);
    Node(true, c, View(c), bytes, [], 0)
  }

  function Next(d: Node, step: Step): Node
    requires Enabled(d, step)
  {
    match step
    case Serving(r) =>
      var c := Serve(d.cache, r);
      if !d.cache.log.ok then d.(cache := c)
      else if c.log.Attached? && c.log.ok then Node(true, c, View(c), c.log.bytes, [], 0)
      else Node(true, c, d.before, d.cache.log.bytes, Writes(d.cache, r), Grown(d.cache.log, c.log))
    case Crash(r, n) => Node(false, d.cache, d.before, d.cache.log.bytes, Writes(d.cache, r), n)
    case Kill => d.(up := false)
    case Restart(room) => Started(File(d), d.cache.capacity, room)
  }

  /** What a replay of `base` lists behind the contents: entries trimmed by an earlier start that
      nobody has written since. */
  function Rest(d: Node): seq<Item> {
    var all := Replayed(d.base, d.cache.capacity);
    if |d.before| <= |all| then all[|d.before|..] else []
  }

  /** What the clients were told of: the contents before the request that was cut off, or those
      and its insert when only the eviction's record is missing. */
  predicate Told(d: Node) {
    || View(d.cache) == d.before
    || (|d.writes| == 2 && d.cut >= |Encode(d.writes[0])| && View(d.cache) == Apply(d.before, d.writes[0]))
  }

  /** The log up to the request in question lists the contents before it. */
  predicate Listed(d: Node) {
    && Clean(d.base) && Lists(Replayed(d.base, d.cache.capacity), d.before, Rest(d))
    && (d.cache.capacity == 0 ==> Rest(d) == [])
  }

  predicate Inv(d: Node) {
    && d.cache.log.Attached?
    && d.cut <= |EncodeAll(d.writes)|
    && Listed(d) && Shaped(d.before, d.cache.capacity, d.writes) && Sensible(d.before, d.writes)
    && Told(d)
    && (d.up ==> Usable(d.cache) && d.cache.log.bytes == File(d))
    && (d.up && d.cache.log.ok ==> d.writes == [] && View(d.cache) == d.before)
  }

  /* ---------------- the invariant ---------------- */

  lemma NothingEncoded(f: Bytes)
    ensures EncodeAll([]) == [] && f + [] == f
  {
  }

  lemma NothingShaped(c: Cache)
    requires Usable(c) && !Failed(c.log)
    ensures Shaped(View(c), c.capacity, []) && Sensible(View(c), [])
  {
    AsContentsHolds(c.items);
  }

  /** An engine on a good log that tracks its contents is where a lifetime can go on. */
  lemma TrackingInv(c: Cache, rest: seq<Item>)
    requires Tracks(c, rest) && (c.capacity == 0 ==> rest == [])
    ensures Inv(Node(true, c, View(c), c.log.bytes, [], 0))
  {
    hide Usable, Clean, Replayed, View, DistinctKeys, AsContents;
    NothingEncoded(c.log.bytes);
    NothingShaped(c);
  }

  lemma StartInv(bytes: Bytes, capacity: nat, room: nat)
    requires Clean(bytes)
    ensures Inv(Started(bytes, capacity, room))
  {
    hide Load, Clean, Inv, Tracks, Trimmed, View, Replayed;
    LoadTracks(bytes, capacity, room);
    LoadIsFront(bytes, capacity, room);
    NoTrim(bytes);
    TrackingInv(Load(bytes, capacity, room), Trimmed(bytes, capacity));
  }

  lemma InvTracks(d: Node)
    requires Inv(d) && d.up && d.cache.log.ok
    ensures Tracks(d.cache, Rest(d)) && File(d) == d.base == d.cache.log.bytes
  {
    hide Usable, Clean, Replayed, View, Lists;
    NothingEncoded(d.base);
  }

  /** A request that the device takes. */
  lemma TakenServing(d: Node, r: Request)
    requires Inv(d) && Enabled(d, Serving(r)) && d.cache.log.ok && !Failed(Serve(d.cache, r).log)
    ensures Inv(Next(d, Serving(r)))
  {
    InvTracks(d);
    var c, e := d.cache, Serve(d.cache, r);
    hide Inv, Usable, Serve, Clean, EncodeAll, Writes, View, Tracks, Rest, Acceptable;
    assert c.capacity == 0 ==> Rest(d) == [] by { NoRest(d); }
    assert Usable(c) by { TracksUsable(c, Rest(d)); }
    ServeUsable(c, r);
    ServeTracks(c, Rest(d), r);
    if c.capacity == 0 { NothingToWrite(Writes(c, r)); }
    TrackingInv(e, Unwritten(Rest(d), Writes(c, r)));
  }

  lemma NoRest(d: Node)
    requires Inv(d)
    ensures d.cache.capacity == 0 ==> Rest(d) == []
  {
  }

  /** A request within whose records the device fails. */
  lemma FailingServing(d: Node, r: Request)
    requires Inv(d) && Enabled(d, Serving(r)) && d.cache.log.ok && Failed(Serve(d.cache, r).log)
    ensures Inv(Next(d, Serving(r)))
  {
    InvTracks(d);
    var c, e, ops := d.cache, Serve(d.cache, r), Writes(d.cache, r);
    var v := Node(true, e, d.before, c.log.bytes, ops, Grown(c.log, e.log));
    NextFailing(d, r);
    assert View(c) == d.before && d.base == c.log.bytes && Listed(d);
    assert Acceptable(r) && Usable(c);
    hide Usable, Serve, Shaped, EncodeAll, Encode, Acceptable, Writes, View, Sensible, Listed, Rest, Next, Enabled, Apply, Tracks, Wrote, Inv;
    ServeUsable(c, r);
    ServeWrites(c, r);
    WritesShaped(c, r);
    WritesSensible(c, r);
    SameRest(d, v);
    FailedInv(c, ops, v);
  }

  lemma NextFailing(d: Node, r: Request)
    requires Enabled(d, Serving(r)) && d.cache.log.ok && Failed(Serve(d.cache, r).log)
    ensures var c, e := d.cache, Serve(d.cache, r);
            Next(d, Serving(r)) == Node(true, e, d.before, c.log.bytes, Writes(c, r), Grown(c.log, e.log))
  {
    hide Serve, Writes, EncodeAll, Acceptable;
  }

  lemma FailedInv(c: Cache, ops: seq<Mutation>, v: Node)
    requires Wrote(c, ops, v.cache) && Failed(v.cache.log) && Usable(v.cache) && Listed(v)
    requires v.before == View(c) && v.base == c.log.bytes && v.writes == ops && v.cut == Grown(c.log, v.cache.log) && v.up
    requires Shaped(v.before, v.cache.capacity, ops) && Sensible(v.before, ops)
    ensures Inv(v)
  {
    hide Usable, Shaped, EncodeAll, Encode, View, Sensible, Listed, Apply;
  }

  lemma TracksUsable(c: Cache, rest: seq<Item>)
    requires Tracks(c, rest)
    ensures Usable(c)
  {
  }

  lemma SameRest(d: Node, e: Node)
    requires Listed(d) && e.base == d.base && e.before == d.before && e.cache.capacity == d.cache.capacity
    ensures Listed(e) && Rest(e) == Rest(d)
  {
    hide Clean, Replayed, Lists;
  }

  lemma FailedServing(d: Node, r: Request)
    requires Inv(d) && Enabled(d, Serving(r)) && !d.cache.log.ok
    ensures Inv(Next(d, Serving(r)))
  {
    assert DistinctKeys(d.cache.items);
    hide Usable, Serve, Shaped, Clean, EncodeAll, Acceptable, View, DistinctKeys, Listed, Sensible;
    ServeUsable(d.cache, r);
    FailureIsSticky(d.cache, r);
    SameRest(d, Next(d, Serving(r)));
  }

  lemma CrashKeepsInv(d: Node, r: Request, n: nat)
    requires Inv(d) && Enabled(d, Crash(r, n))
    ensures Inv(Next(d, Crash(r, n)))
  {
    InvTracks(d);
    hide Usable, Shaped, Clean, EncodeAll, Acceptable, Writes, View, Listed, Sensible, Tracks;
    assert Usable(d.cache) by { TracksUsable(d.cache, Rest(d)); }
    WritesShaped(d.cache, r);
    WritesSensible(d.cache, r);
    SameRest(d, Next(d, Crash(r, n)));
  }

  lemma KillKeepsInv(d: Node)
    requires Inv(d) && Enabled(d, Kill)
    ensures Inv(Next(d, Kill))
  {
    hide Usable, Shaped, Clean, EncodeAll, View, Listed, Sensible;
    SameRest(d, Next(d, Kill));
  }

  lemma StepKeepsInv(d: Node, step: Step)
    requires Inv(d) && Enabled(d, step)
    ensures Inv(Next(d, step))
  {
    match step
    case Serving(r) =>
      hide Inv, Next, Enabled;
      AttachedNode(d);
      if !d.cache.log.ok { FailedServing(d, r); }
      else if Failed(Serve(d.cache, r).log) { FailingServing(d, r); }
      else { TakenServing(d, r); }
    case Crash(r, n) =>
      hide Inv, Next, Enabled;
      CrashKeepsInv(d, r, n);
    case Kill =>
      hide Inv, Next, Enabled;
      KillKeepsInv(d);
    case Restart(room) =>
      hide Inv, Clean, Started;
      StartInv(File(d), d.cache.capacity, room);
  }

  lemma AttachedNode(d: Node)
    requires Inv(d)
    ensures d.cache.log.Attached?
  {
  }

  predicate IsRun(d: Node, steps: seq<Step>)
    decreases steps
  {
    steps == [] || (Enabled(d, steps[0]) && IsRun(Next(d, steps[0]), steps[1..]))
  }

  function After(d: Node, steps: seq<Step>): Node
    requires IsRun(d, steps)
    decreases steps
  {
    if steps == [] then d else After(Next(d, steps[0]), steps[1..])
  }

  lemma {:induction false} RunKeepsInv(d: Node, steps: seq<Step>)
    requires Inv(d) && IsRun(d, steps)
    ensures Inv(After(d, steps))
    decreases steps
  {
    hide Inv, Enabled, Next;
    if steps != [] {
      StepKeepsInv(d, steps[0]);
      RunKeepsInv(Next(d, steps[0]), steps[1..]);
    }
  }

  /* ---------------- what a restart finds ---------------- */

  /** The crash or failure fell behind an insert and before the end of its eviction's record. */
  predicate Between(d: Node) {
    |d.writes| == 2 && |Encode(d.writes[0])| <= d.cut < |EncodeAll(d.writes)|
  }

  /** The contents after the whole of the request that was cut off. */
  function Finished(d: Node): Contents {
    ApplyAll(d.before, d.writes)
  }

  /** The records of that request that reached the log whole. */
  function Arrived(d: Node): seq<Mutation> {
    d.writes[..Complete(d.writes, d.cut)]
  }

  lemma ShapedSize(m: Contents, capacity: nat, writes: seq<Mutation>)
    requires Shaped(m, capacity, writes)
    ensures |writes| <= 2
  {
  }

  lemma ArrivedIs(d: Node)
    requires Inv(d)
    ensures Between(d) ==> Arrived(d) == [d.writes[0]]
    ensures !Between(d) ==> Arrived(d) == d.writes || (Arrived(d) == [] && d.cut < |Encode(d.writes[0])|)
  {
    hide Listed, Shaped, Told, Encode, Usable, Sensible, View;
    ShapedSize(d.before, d.cache.capacity, d.writes);
    var w := d.writes;
    var j := Complete(w, d.cut);
    CompleteBounds(w, d.cut);
    hide Complete;
    assert w[..|w|] == w;
    if w != [] {
      EncodeOne(w[0]);
      assert w[..1] == [w[0]] && w[..0] == [] && EncodeAll(w[..0]) == [];
      assert |w| == 1 ==> w == [w[0]];
    }
  }

  lemma {:induction false} SensiblePrefix(m: Contents, ops: seq<Mutation>, n: nat)
    requires Sensible(m, ops) && n <= |ops|
    ensures Sensible(m, ops[..n])
    decreases ops
  {
    hide Apply;
    if n > 0 {
      SensiblePrefix(Apply(m, ops[0]), ops[1..], n - 1);
      assert ops[..n][1..] == ops[1..][..n - 1];
    }
  }

  /** The log lists what the records that arrived make of the contents, and behind that what is
      left of the trimmed entries. */
  lemma FileLists(d: Node)
    requires Inv(d)
    ensures History(File(d)) == History(d.base) + Arrived(d)
    ensures Lists(Replayed(File(d), d.cache.capacity), ApplyAll(d.before, Arrived(d)), Unwritten(Rest(d), Arrived(d)))
  {
    assert forall op :: op in d.writes ==> Storable(op);
    hide Clean, History, EncodeAll, Complete, Told, Usable, Lists, Shaped, View, Replayed, Sensible, Storable;
    TornPrefix(d.base, d.writes, d.cut);
    SensiblePrefix(d.before, d.writes, Complete(d.writes, d.cut));
    ReplayedMore(d.base, File(d), d.cache.capacity, d.before, Rest(d), Arrived(d));
  }

  /** The trimmed entries that come back at a restart. */
  function Returned(d: Node): seq<Item> {
    Returning(Unwritten(Rest(d), Arrived(d)), |ApplyAll(d.before, Arrived(d))|, d.cache.capacity)
  }

  function Served(d: Node, room: nat): Contents
    requires d.cut <= |EncodeAll(d.writes)|
  {
    View(Load(File(d), d.cache.capacity, room))
  }

  lemma FinishedFits(m: Contents, capacity: nat, writes: seq<Mutation>)
    requires Shaped(m, capacity, writes)
    ensures FitsIn(ApplyAll(m, writes), capacity)
    ensures |writes| == 2 ==> |m| == |ApplyAll(m, writes)| == capacity
  {
    if |writes| == 1 {
      ApplyOne(m, writes[0]);
      assert writes == [writes[0]];
    } else if |writes| == 2 {
      ApplyTwo(m, writes[0], writes[1]);
      assert writes == [writes[0], writes[1]];
      var k, victim := writes[0].key, writes[1].key;
      InsertSize(m, k, writes[0].value);
      InsertSize(m[k := writes[0].value], victim, []);
    }
  }

  /** Away from the window between two records: the whole request or nothing of it, and what
      comes back. */
  lemma WholeOrNothing(d: Node, room: nat)
    requires Inv(d) && !Between(d)
    ensures FitsIn(ApplyAll(d.before, Arrived(d)), d.cache.capacity)
    ensures Served(d, room) == ApplyAll(d.before, Arrived(d)) + AsContents(Returned(d))
    ensures DistinctKeys(Returned(d))
    ensures forall i :: 0 <= i < |Returned(d)| ==> Returned(d)[i].key !in ApplyAll(d.before, Arrived(d))
  {
    assert FitsIn(d.before, d.cache.capacity);
    ArrivedIs(d);
    FileLists(d);
    FinishedFits(d.before, d.cache.capacity, d.writes);
    hide Load, Clean, EncodeAll, Complete, Usable, View, Replayed, Lists, Shaped, Sensible, Told, Unwritten, Rest, AsContents, DistinctKeys,
      Arrived, Between, History, Listed;
    assert ApplyAll(d.before, []) == d.before;
    var m := ApplyAll(d.before, Arrived(d));
    LoadLists(File(d), d.cache.capacity, room, m, Unwritten(Rest(d), Arrived(d)));
  }

  /** An accident that makes a wrong restart look right: a SET that never reached the log was to
      write just what comes back. */
  predicate Rewritten(d: Node) {
    |d.writes| == 1 && Arrived(d) == [] && d.writes[0].Put? && Returned(d) == [Item(d.writes[0].key, d.writes[0].value)]
  }

  lemma ReturnedIsForeign(d: Node)
    requires Inv(d) && Returned(d) != []
    ensures Returned(d)[0].key !in d.before
  {
    hide Clean, Usable, View, Replayed, Shaped, Sensible, Told, Arrived, Lists, Unwritten, DistinctKeys;
    var item := Returned(d)[0];
    assert item in Unwritten(Rest(d), Arrived(d));
    var all := Replayed(d.base, d.cache.capacity);
    RestDistinct(all, d.before, Rest(d));
    UnwrittenMeans(Rest(d), Arrived(d), item);
    RestIsForeign(all, d.before, Rest(d), item);
  }

  lemma RestDistinct(all: seq<Item>, m: Contents, rest: seq<Item>)
    requires Lists(all, m, rest)
    ensures DistinctKeys(rest)
  {
  }

  lemma RestIsForeign(all: seq<Item>, m: Contents, rest: seq<Item>, item: Item)
    requires Lists(all, m, rest) && item in rest
    ensures item.key !in m
  {
    DistinctParts(all, |m|);
    hide AsContents, DistinctKeys;
    var i :| 0 <= i < |rest| && rest[i] == item;
    assert all[|m| + i] == item;
  }

  lemma AddsOnly(m: Contents, back: seq<Item>, k: Bytes, v: Bytes)
    requires DistinctKeys(back) && back != [] && forall i :: 0 <= i < |back| ==> back[i].key !in m
    ensures m + AsContents(back) == m[k := v] <==> back == [Item(k, v)]
  {
    if back == [Item(k, v)] {
      assert back[1..] == [];
      assert m + map[k := v] == m[k := v];
    }
    if m + AsContents(back) == m[k := v] {
      IsThatOne(m, back, k, v);
    }
  }

  lemma IsThatOne(m: Contents, back: seq<Item>, k: Bytes, v: Bytes)
    requires DistinctKeys(back) && back != [] && forall i :: 0 <= i < |back| ==> back[i].key !in m
    requires m + AsContents(back) == m[k := v]
    ensures back == [Item(k, v)]
  {
    AsContentsHolds(back);
    var r := AsContents(back);
    hide AsContents;
    forall i | 0 <= i < |back|
      ensures back[i] == Item(k, v)
    {
      assert back[i].key in m + r && (m + r)[back[i].key] == back[i].value;
    }
    assert |back| > 1 ==> back[0].key != back[1].key;
  }

  lemma Adds(m: Contents, back: seq<Item>)
    requires DistinctKeys(back) && back != []
    ensures back[0].key in m + AsContents(back)
  {
    AsContentsHolds(back);
  }

  lemma NothingArrived(d: Node, room: nat)
    requires Inv(d) && !Between(d) && Arrived(d) == [] && d.writes != []
    ensures Served(d, room) == View(d.cache) || Served(d, room) == Finished(d) <==> Returned(d) == [] || Rewritten(d)
  {
    WholeOrNothing(d, room);
    ToldBefore(d);
    ShapedSize(d.before, d.cache.capacity, d.writes);
    hide Inv, Served, AsContents, DistinctKeys, Returned, View, Between, Arrived;
    var m, back := d.before, Returned(d);
    assert ApplyAll(m, []) == m;
    AddNothing(m, back);
    if back != [] {
      assert d.writes == [d.writes[0]];
      OneLostWrite(m, back, d.writes[0]);
    }
  }

  lemma ToldBefore(d: Node)
    requires Inv(d) && !Between(d) && Arrived(d) == [] && d.writes != []
    ensures View(d.cache) == d.before && (|d.writes| == 2 ==> Returned(d) == [])
  {
    ArrivedIs(d);
    FinishedFits(d.before, d.cache.capacity, d.writes);
    hide Listed, Sensible, Usable, View, EncodeAll, Encode, Arrived, Between, Rest, Unwritten;
    assert ApplyAll(d.before, []) == d.before;
  }

  lemma OneLostWrite(m: Contents, back: seq<Item>, op: Mutation)
    requires DistinctKeys(back) && back != [] && forall i :: 0 <= i < |back| ==> back[i].key !in m
    ensures m + AsContents(back) == ApplyAll(m, [op]) <==> op.Put? && back == [Item(op.key, op.value)]
  {
    ApplyOne(m, op);
    if op.Put? {
      AddsOnly(m, back, op.key, op.value);
    } else {
      Adds(m, back);
    }
  }

  lemma AllArrived(d: Node, room: nat)
    requires Inv(d) && !Between(d) && Arrived(d) == d.writes
    ensures Served(d, room) == View(d.cache) || Served(d, room) == Finished(d) <==> Returned(d) == [] || Rewritten(d)
  {
    WholeOrNothing(d, room);
    FinishedFits(d.before, d.cache.capacity, d.writes);
    assert |d.writes| == 2 ==> Returned(d) == [];
    assert View(d.cache) == d.before || |d.writes| == 2;
    if Returned(d) != [] { ReturnedIsForeign(d); }
    hide Inv, Served, AsContents, DistinctKeys, Returned, View, Between, Arrived;
    AddNothing(Finished(d), Returned(d));
    if Returned(d) != [] {
      Adds(Finished(d), Returned(d));
    }
  }

  /* ---------------- the window ---------------- */

  /** The last entry that a start on this log would keep, its list being full: of the keys it
      keeps, the one least recently written. */
  predicate LeastWritten(bytes: Bytes, capacity: nat, key: Bytes) {
    var all := Replayed(bytes, capacity);
    0 < capacity <= |all| && all[capacity - 1].key == key
  }

  /** One more insert in the log puts its key in front of the contents listed before. */
  lemma ReplayedInsert(f: Bytes, g: Bytes, capacity: nat, m: Contents, rest: seq<Item>, k: Bytes, v: Bytes)
    requires Lists(Replayed(f, capacity), m, rest) && k !in m && History(g) == History(f) + [Put(k, v)]
    ensures var all := Replayed(g, capacity); |all| > |m| && all[..|m| + 1] == [Item(k, v)] + Replayed(f, capacity)[..|m|]
  {
    hide History, Lists, ReplayOne, Replaying, View;
    var c := ReplayAll(Fresh(capacity), History(f));
    FreshReplays(capacity);
    ReplayApplies(Fresh(capacity), History(f));
    ReplayAllConcat(Fresh(capacity), History(f), [Put(k, v)]);
    assert ReplayAll(c, [Put(k, v)]) == ReplayOne(c, Put(k, v)) by { assert [Put(k, v)][1..] == []; }
    InsertInFront(c, m, rest, k, v);
  }

  lemma FreshReplays(capacity: nat)
    ensures Replaying(Fresh(capacity))
  {
  }

  lemma InsertInFront(c: Cache, m: Contents, rest: seq<Item>, k: Bytes, v: Bytes)
    requires Replaying(c) && Lists(c.items, m, rest) && k !in m
    ensures |m| <= |c.items| && |ReplayOne(c, Put(k, v)).items| > |m|
    ensures ReplayOne(c, Put(k, v)).items[..|m| + 1] == [Item(k, v)] + c.items[..|m|]
  {
    PositionInParts(c.items, m, rest, k);
    assert |m| <= |c.items|;
    ReplayPut(c, k, v);
    hide Lists, Position, Touch, ReplayOne, Replaying;
    var p := Position(c.items, k);
    if p < |c.items| {
      TouchParts(c.items, |m|, p - |m|, v);
      assert c.items[|m|..][p - |m|] == c.items[p];
    } else {
      FrontOfInsert(c.items, |m|, Item(k, v));
    }
  }

  lemma FrontOfInsert(all: seq<Item>, n: nat, item: Item)
    requires n <= |all|
    ensures ([item] + all)[..n + 1] == [item] + all[..n]
  {
  }

  /** A restart behind an insert whose eviction is missing drops the key least recently written. */
  lemma InterruptedInsert(f: Bytes, g: Bytes, capacity: nat, room: nat, m: Contents, rest: seq<Item>, k: Bytes, v: Bytes)
    requires Lists(Replayed(f, capacity), m, rest) && k !in m && 0 < capacity == |m|
    requires History(g) == History(f) + [Put(k, v)]
    ensures var last := Replayed(f, capacity)[capacity - 1].key;
            last in m && View(Load(g, capacity, room)) == (m - {last})[k := v]
  {
    ReplayedInsert(f, g, capacity, m, rest, k, v);
    LoadIsFront(g, capacity, room);
    var was, all := Replayed(f, capacity), Replayed(g, capacity);
    DistinctParts(was, capacity);
    hide Load, Replayed, AsContents, Recovered, DistinctKeys, History;
    var front := was[..capacity];
    assert all[..capacity] == all[..capacity + 1][..capacity];
    assert ([Item(k, v)] + front)[..capacity] == [Item(k, v)] + front[..capacity - 1];
    BackContents(front);
    AsContentsHead(all[..capacity], Item(k, v), front[..capacity - 1]);
  }

  lemma CaughtBetween(d: Node, room: nat)
    requires Inv(d) && Between(d)
    ensures Served(d, room) == View(d.cache) || Served(d, room) == Finished(d) <==>
              LeastWritten(d.base, d.cache.capacity, d.writes[1].key)
  {
    ArrivedIs(d);
    FileLists(d);
    var m, insert, evict := d.before, d.writes[0], d.writes[1];
    assert Evicting(m, d.cache.capacity, insert, evict);
    assert d.writes == [insert, evict];
    assert |m| <= |Replayed(d.base, d.cache.capacity)|;
    hide Load, History, Clean, EncodeAll, Usable, View, Replayed, Lists, Shaped, Sensible, Unwritten, Rest, Arrived, Between;
    InterruptedInsert(d.base, File(d), d.cache.capacity, room, m, Rest(d), insert.key, insert.value);
    ApplyTwo(m, insert, evict);
    TrimmedInsert(m, insert.key, insert.value, Replayed(d.base, d.cache.capacity)[d.cache.capacity - 1].key, evict.key);
  }

  lemma TrimmedInsert(m: Contents, k: Bytes, v: Bytes, last: Bytes, victim: Bytes)
    requires k !in m && last in m && victim in m
    ensures var served := (m - {last})[k := v];
            && served != m && served != m[k := v]
            && (served == m[k := v] - {victim} <==> last == victim)
  {
    var served := (m - {last})[k := v];
    assert k in served && last !in served && last in m[k := v];
    if last != victim {
      assert victim in served && victim !in m[k := v] - {victim};
    }
  }

  /* ---------------- the promise, exactly ---------------- */

  /** A restart serves what clients were told of, or that and the whole request in flight, if and
      only if: where the crash or failure fell between an insert and the end of its eviction's
      record, the key to be evicted, the least recently used, is also the least recently written;
      elsewhere, no trimmed entry comes back, or only one that the lost request was to write. */
  lemma RestartServes(d: Node, room: nat)
    requires Inv(d)
    ensures Served(d, room) == View(d.cache) || Served(d, room) == Finished(d) <==>
              if Between(d) then LeastWritten(d.base, d.cache.capacity, d.writes[1].key)
              else Returned(d) == [] || Rewritten(d)
    ensures !Between(d) ==> Served(d, room) == ApplyAll(d.before, Arrived(d)) + AsContents(Returned(d))
  {
    hide Inv, Served, Finished, LeastWritten, Returned, Rewritten, Arrived;
    if Between(d) {
      CaughtBetween(d, room);
    } else {
      ArrivedIs(d);
      WholeOrNothing(d, room);
      if Arrived(d) == d.writes { AllArrived(d, room); } else { NothingArrived(d, room); }
    }
  }

  /** Where no start has trimmed anything that is still in the log, the window is all there is. */
  lemma UntrimmedRestart(d: Node, room: nat)
    requires Inv(d) && Rest(d) == []
    ensures Served(d, room) == View(d.cache) || Served(d, room) == Finished(d) <==>
              !Between(d) || LeastWritten(d.base, d.cache.capacity, d.writes[1].key)
  {
    NothingToWrite(Arrived(d));
    assert Returned(d) == [];
    hide Inv, Served, Finished, LeastWritten, Returned, Arrived;
    RestartServes(d, room);
  }

  /** The same from any log that ends at a record boundary, through any requests, crashes,
      failures, kills, and restarts that find such a log again. */
  lemma EveryLifetime(bytes: Bytes, capacity: nat, room: nat, steps: seq<Step>, room': nat)
    requires Clean(bytes) && IsRun(Started(bytes, capacity, room), steps)
    ensures var d := After(Started(bytes, capacity, room), steps);
            && d.cut <= |EncodeAll(d.writes)|
            && (Served(d, room') == View(d.cache) || Served(d, room') == Finished(d) <==>
                  if Between(d) then LeastWritten(d.base, d.cache.capacity, d.writes[1].key)
                  else Returned(d) == [] || Rewritten(d))
            && (d.up ==> Usable(d.cache) && d.cache.log.Attached?)
  {
    hide IsRun, After, Started, Clean, Served, Finished, Between, LeastWritten, Returned, Rewritten, Usable, Shaped, Told, Listed, Sensible;
    StartInv(bytes, capacity, room);
    RunKeepsInv(Started(bytes, capacity, room), steps);
    RestartServes(After(Started(bytes, capacity, room), steps), room');
  }

  /** The order in the condition of `RestartServes`, said with a clock: of the keys that a start
      on this log would keep, the one whose last write is oldest. */
  lemma LeastWrittenIsOldest(bytes: Bytes, capacity: nat, key: Bytes)
    ensures var kept := LruClock.Started(bytes, capacity).entries;
            LeastWritten(bytes, capacity, key) <==> 0 < capacity <= |kept| && LruClock.Oldest(kept) == key
  {
    hide LruClock.Sorted, LruClock.Oldest, LruClock.Started, Load, Replayed, AsContents, Recovered, DistinctKeys;
    LoadIsFront(bytes, capacity, 0);
    LruClock.LoadRelated(bytes, capacity, 0);
    var front := Load(bytes, capacity, 0).items;
    var clock := LruClock.Started(bytes, capacity);
    LruClock.SortedSize(front, clock);
    if front != [] {
      LruClock.BackIsOldest(front, clock);
    }
  }
}
