/** The in-memory engine and its log over whole runs, with append failures placed anywhere, and
    across restarts. */
module WalRuns {
  import opened ByteStrings
  import opened KeyValue
  import opened Records
  import opened Recovery
  import opened WriteAheadLog
  import opened LruCache

  /** The log holds exactly the history `h`; once failed, possibly also the one record whose
      append was reported bad, and that only if the whole of it reached the file. */
  predicate Holds(log: Log, h: seq<Mutation>) {
    match log
    case Detached => true
    case Attached(b, _, ok) =>
      if ok then Clean(b) && History(b) == h
      else History(b) == h || (|History(b)| == |h| + 1 && History(b)[..|h|] == h)
  }

  lemma AppendHolds(log: Log, h: seq<Mutation>, op: Mutation)
    requires Holds(log, h) && Storable(op)
    ensures var a := AppendTo(log, op);
            && Holds(a.log, if a.done then h + [op] else h)
            && (a.done ==> !Failed(log) && !Failed(a.log))
            && (!a.done ==> Failed(a.log))
  {
    hide Encode, Clean, History;
    if log.Attached? && log.ok {
      var b, record := log.bytes, Encode(op);
      AppendWhole(b, op);
      if |record| >= log.room {
        if log.room < |record| {
          AppendTorn(b, op, log.room);
        } else {
          assert record[..|record|] == record;
          assert (h + [op])[..|h|] == h;
        }
      }
    }
  }

  /** Memory is what the mutations handed out since `h` was loaded make of it, the log holds
      the same history, and every field can be logged. */
  predicate Agrees(c: Cache, h: seq<Mutation>) {
    && DistinctKeys(c.items)
    && AllStorable(View(c))
    && View(c) == ApplyAll(map[], h + c.outbox)
    && Holds(c.log, h + c.outbox)
  }

  /** At most the capacity; one more only once the log has failed. */
  predicate Fits(c: Cache) {
    c.capacity > 0 ==> |c.items| <= c.capacity + (if Failed(c.log) then 1 else 0)
  }

  /** A mutation written ahead, handed out and applied keeps the agreement. */
  lemma CommitAgrees(c: Cache, h: seq<Mutation>, op: Mutation, c': Cache)
    requires Agrees(c, h) && Storable(op)
    requires var a := AppendTo(c.log, op); a.done && c'.log == a.log
    requires c'.outbox == c.outbox + [op]
    requires DistinctKeys(c'.items) && View(c') == Apply(View(c), op)
    ensures Agrees(c', h) && !Failed(c.log) && !Failed(c'.log)
  {
    hide AppendTo, Encode, DistinctKeys, View;
    AppendHolds(c.log, h + c.outbox, op);
    assert h + c'.outbox == (h + c.outbox) + [op];
    ApplyAllLast(map[], h + c.outbox, op);
  }

  /** A refused mutation changes the log's failure state and nothing else. */
  lemma RefusalAgrees(c: Cache, h: seq<Mutation>, op: Mutation)
    requires Agrees(c, h) && Storable(op) && !AppendTo(c.log, op).done
    ensures Agrees(c.(log := AppendTo(c.log, op).log), h) && Failed(AppendTo(c.log, op).log)
  {
    hide AppendTo, Encode, DistinctKeys, ApplyAll;
    AppendHolds(c.log, h + c.outbox, op);
  }

  lemma BackStorable(c: Cache)
    requires DistinctKeys(c.items) && AllStorable(View(c)) && c.items != []
    ensures var k := c.items[|c.items| - 1].key; k in View(c) && Storable(Remove(k))
  {
    AsContentsHolds(c.items);
  }

  lemma EvictAgrees(c: Cache, h: seq<Mutation>)
    requires Agrees(c, h) && c.items != []
    ensures var r := EvictLru(c, true);
            Agrees(r.cache, h) && (r.done ==> !Failed(r.cache.log)) && (!r.done ==> Failed(r.cache.log))
  {
    hide AppendTo, Holds, AllStorable;
    BackStorable(c);
    BackContents(c.items);
    var op := Remove(c.items[|c.items| - 1].key);
    if AppendTo(c.log, op).done {
      CommitAgrees(c, h, op, EvictLru(c, true).cache);
    } else {
      RefusalAgrees(c, h, op);
    }
  }

  lemma {:induction false} EvictAllAgrees(c: Cache, h: seq<Mutation>)
    requires Agrees(c, h)
    ensures var d := EvictAll(c, true);
            && Agrees(d, h) && d.capacity == c.capacity && d.replaying == c.replaying
            && (OverCapacity(d) ==> Failed(d.log) && |d.items| <= |c.items|)
    decreases |c.items|
  {
    hide Agrees, EvictLru;
    if OverCapacity(c) {
      EvictAgrees(c, h);
      var r := EvictLru(c, true);
      if r.done {
        EvictAllAgrees(r.cache, h);
      }
    }
  }

  predicate Live(c: Cache, h: seq<Mutation>) {
    Agrees(c, h) && Fits(c) && !c.replaying
  }

  lemma SetLive(c: Cache, h: seq<Mutation>, key: Bytes, value: Bytes)
    requires Live(c, h) && FieldOk(key) && FieldOk(value)
    ensures var r := Set(c, key, value);
            Live(r.cache, h) && r.cache.capacity == c.capacity
  {
    hide AppendTo, EvictAll, Agrees, DistinctKeys;
    var op := Put(key, value);
    var a := AppendTo(c.log, op);
    if !a.done {
      RefusalAgrees(c, h, op);
      RefusalFits(c, op);
    } else {
      var p := Position(c.items, key);
      assert DistinctKeys(c.items) by { ListIsDistinct(c, h); }
      if p < |c.items| {
        TouchContents(c.items, p, value);
        CommitAgrees(c, h, op, Set(c, key, value).cache);
      } else {
        FrontContents(c.items, key, value);
        var c3 := c.(log := a.log, outbox := c.outbox + [op], items := [Item(key, value)] + c.items);
        CommitAgrees(c, h, op, c3);
        EvictAllAgrees(c3, h);
      }
    }
  }

  lemma ListIsDistinct(c: Cache, h: seq<Mutation>)
    requires Agrees(c, h)
    ensures DistinctKeys(c.items)
  {
  }

  lemma RefusalFits(c: Cache, op: Mutation)
    requires Fits(c) && !AppendTo(c.log, op).done
    ensures Fits(c.(log := AppendTo(c.log, op).log))
  {
  }

  /** A read reorders the list and leaves the contents alone. */
  lemma GetLive(c: Cache, h: seq<Mutation>, key: Bytes)
    requires Live(c, h)
    ensures Live(Get(c, key), h) && Get(c, key).capacity == c.capacity && View(Get(c, key)) == View(c)
  {
    hide Holds, ApplyAll, AllStorable, Get, View;
    GetKeepsView(c, key);
  }

  lemma DelLive(c: Cache, h: seq<Mutation>, key: Bytes)
    requires Live(c, h)
    ensures Live(Del(c, key).cache, h) && Del(c, key).cache.capacity == c.capacity
  {
    hide AppendTo, Holds, ApplyAll;
    var p := Position(c.items, key);
    if p < |c.items| {
      HasIsContents(c, key);
      var op := Remove(key);
      AsContentsDrop(c.items, p);
      DropDistinct(c.items, p);
      if AppendTo(c.log, op).done {
        CommitAgrees(c, h, op, Del(c, key).cache);
      } else {
        RefusalAgrees(c, h, op);
        RefusalFits(c, op);
      }
    }
  }

  /** The protocol never passes an empty or over-long field to a write. */
  predicate Acceptable(r: Request) {
    r.SetRequest? ==> FieldOk(r.key) && FieldOk(r.value)
  }

  lemma ServeLive(c: Cache, h: seq<Mutation>, r: Request)
    requires Live(c, h) && Acceptable(r)
    ensures Live(Serve(c, r), h) && Serve(c, r).capacity == c.capacity
  {
    hide Live, Set, Get, Del;
    match r
    case SetRequest(k, v) => SetLive(c, h, k, v);
    case GetRequest(k) => GetLive(c, h, k);
    case DelRequest(k) => DelLive(c, h, k);
  }

  /** Log and memory agree along every run of reads, writes and deletes, wherever the device
      starts to fail; the list never exceeds its capacity by more than one entry, and by that
      one only after a failure. */
  lemma {:induction false} RunStaysLive(c: Cache, h: seq<Mutation>, rs: seq<Request>)
    requires Live(c, h) && forall r :: r in rs ==> Acceptable(r)
    ensures Live(ServeAll(c, rs), h) && ServeAll(c, rs).capacity == c.capacity
    decreases rs
  {
    hide Live, Serve;
    if rs != [] {
      assert Acceptable(rs[0]);
      ServeLive(c, h, rs[0]);
      RunStaysLive(Serve(c, rs[0]), h, rs[1..]);
    }
  }

  /** After a failed append every write is refused and memory, log and outbox stay as they are. */
  lemma FailureIsSticky(c: Cache, r: Request)
    requires Failed(c.log) && DistinctKeys(c.items)
    ensures var d := Serve(c, r);
            d.log == c.log && d.outbox == c.outbox && View(d) == View(c)
    ensures r.SetRequest? ==> !Set(c, r.key, r.value).done
    ensures r.DelRequest? ==> (Del(c, r.key).done <==> !Has(c, r.key))
  {
    hide Get, View;
    if r.GetRequest? {
      GetKeepsView(c, r.key);
    }
  }

  /* ---------------- restarts ---------------- */

  function ReplayOne(c: Cache, op: Mutation): Cache {
    match op
    case Put(k, v) => Set(c, k, v).cache
    case Remove(k) => Del(c, k).cache
  }

  function ReplayAll(c: Cache, ops: seq<Mutation>): Cache
    decreases ops
  {
    if ops == [] then c else ReplayAll(ReplayOne(c, ops[0]), ops[1..])
  }

  predicate Replaying(c: Cache) {
    c.replaying && c.log.Detached? && DistinctKeys(c.items)
  }

  /** In replay mode the cache is a plain map: nothing is evicted, nothing is refused. */
  lemma ReplayOneApplies(c: Cache, op: Mutation)
    requires Replaying(c)
    ensures var d := ReplayOne(c, op);
            Replaying(d) && d.capacity == c.capacity && View(d) == Apply(View(c), op)
  {
    var p := Position(c.items, op.key);
    HasIsContents(c, op.key);
    if p < |c.items| {
      AsContentsDrop(c.items, p);
      DropDistinct(c.items, p);
      if op.Put? { TouchContents(c.items, p, op.value); }
    } else if op.Put? {
      FrontContents(c.items, op.key, op.value);
    }
  }

  lemma {:induction false} ReplayApplies(c: Cache, ops: seq<Mutation>)
    requires Replaying(c)
    ensures var d := ReplayAll(c, ops);
            Replaying(d) && d.capacity == c.capacity && View(d) == ApplyAll(View(c), ops)
    decreases ops
  {
    hide Replaying, View, ReplayOne;
    if ops != [] {
      ReplayOneApplies(c, ops[0]);
      ReplayApplies(ReplayOne(c, ops[0]), ops[1..]);
    }
  }

  /** An unlogged trim keeps exactly the most recently used entries that fit. */
  lemma {:induction false} TrimTakesFront(c: Cache)
    ensures var n := if c.capacity > 0 && |c.items| > c.capacity then c.capacity else |c.items|;
            EvictAll(c, false) == c.(items := c.items[..n])
    decreases |c.items|
  {
    if OverCapacity(c) {
      TrimTakesFront(EvictLru(c, false).cache);
    }
  }

  function Fresh(capacity: nat): Cache {
    Cache([], capacity, true, Detached, [])
  }

  /** Startup: replay the file, trim, then attach it for appending on a device with `room`. */
  function Load(bytes: Bytes, capacity: nat, room: nat): Cache {
    EndReplay(ReplayAll(Fresh(capacity), History(bytes))).(log := Attached(bytes, room, true), outbox := [])
  }

  /** What startup loads: the front of a listing of the recovered contents. */
  lemma LoadedItems(bytes: Bytes, capacity: nat, room: nat)
    ensures var all := ReplayAll(Fresh(capacity), History(bytes)).items;
            var n := if capacity > 0 && |all| > capacity then capacity else |all|;
            && DistinctKeys(all) && AsContents(all) == Recovered(bytes)
            && Load(bytes, capacity, room) == Cache(all[..n], capacity, false, Attached(bytes, room, true), [])
  {
    hide History, EvictAll;
    ReplayApplies(Fresh(capacity), History(bytes));
    TrimTakesFront(ReplayAll(Fresh(capacity), History(bytes)).(replaying := false));
  }

  /** Startup reproduces the recovered contents exactly when they fit the capacity. */
  lemma LoadExact(bytes: Bytes, capacity: nat, room: nat)
    ensures View(Load(bytes, capacity, room)) == Recovered(bytes) <==>
              capacity == 0 || |Recovered(bytes)| <= capacity
    ensures DistinctKeys(Load(bytes, capacity, room).items)
  {
    hide Recovered, Load, ReplayAll, History, AsContents;
    LoadedItems(bytes, capacity, room);
    var all := ReplayAll(Fresh(capacity), History(bytes)).items;
    FrontContentsSize(all, |Load(bytes, capacity, room).items|);
  }

  lemma FrontContentsSize(items: seq<Item>, n: nat)
    requires DistinctKeys(items) && n <= |items|
    ensures DistinctKeys(items[..n]) && |AsContents(items)| == |items|
    ensures AsContents(items[..n]) == AsContents(items) <==> n == |items|
  {
    assert DistinctKeys(items[..n]);
    AsContentsHolds(items);
    AsContentsHolds(items[..n]);
    hide AsContents;
    assert n == |items| ==> items[..n] == items;
  }

  lemma LoadLive(bytes: Bytes, capacity: nat, room: nat)
    requires Clean(bytes) && (capacity == 0 || |Recovered(bytes)| <= capacity)
    ensures Live(Load(bytes, capacity, room), History(bytes))
  {
    hide Load, ReplayAll, History, Clean;
    LoadedItems(bytes, capacity, room);
    LoadExact(bytes, capacity, room);
    RecoveredStorable(bytes);
    var d := Load(bytes, capacity, room);
    AsContentsHolds(d.items);
    assert History(bytes) + d.outbox == History(bytes);
  }

  /** While no append has failed, the log replays to exactly the live contents, and a restart
      loads exactly those: evictions are in the log, and the trim finds nothing to do. */
  lemma RestartExact(c: Cache, h: seq<Mutation>, room: nat)
    requires Live(c, h) && c.log.Attached? && c.log.ok
    ensures Recovered(c.log.bytes) == View(c)
    ensures View(Load(c.log.bytes, c.capacity, room)) == View(c)
    ensures Live(Load(c.log.bytes, c.capacity, room), History(c.log.bytes))
  {
    hide History, Load, Clean, AllStorable;
    AsContentsHolds(c.items);
    LoadExact(c.log.bytes, c.capacity, room);
    LoadLive(c.log.bytes, c.capacity, room);
  }

  /** Logged eviction makes replay exact: from an empty log and whatever the reads did to the
      recency order, replaying the log gives the live contents back. */
  lemma LoggedEvictionIsExact(capacity: nat, room: nat, rs: seq<Request>, room': nat)
    requires forall r :: r in rs ==> Acceptable(r)
    ensures var c := ServeAll(Load([], capacity, room), rs);
            && c.log.Attached?
            && (c.log.ok ==> Recovered(c.log.bytes) == View(c) && View(Load(c.log.bytes, capacity, room')) == View(c))
            && (!c.log.ok ==> View(c) == ApplyAll(map[], c.outbox) && c.outbox <= History(c.log.bytes)
                              && |History(c.log.bytes)| <= |c.outbox| + 1)
  {
    hide Load, ServeAll, Recovered, Clean;
    EmptyFile();
    assert Recovered([]) == map[] by { EmptyRecovers(); }
    LoadLive([], capacity, room);
    LoadedItems([], capacity, room);
    var c0 := Load([], capacity, room);
    RunStaysLive(c0, [], rs);
    LogStaysAttached(c0, rs);
    var c := ServeAll(c0, rs);
    assert [] + c.outbox == c.outbox;
    if c.log.ok {
      RestartExact(c, [], room');
    }
  }

  lemma EmptyRecovers()
    ensures Recovered([]) == map[]
  {
    EmptyFile();
  }

  lemma {:induction false} EvictAllKeepsLog(c: Cache, logged: bool)
    ensures EvictAll(c, logged).log.Attached? <==> c.log.Attached?
    decreases |c.items|
  {
    if OverCapacity(c) {
      var r := EvictLru(c, logged);
      if r.done { EvictAllKeepsLog(r.cache, logged); }
    }
  }

  lemma ServeKeepsLog(c: Cache, r: Request)
    ensures Serve(c, r).log.Attached? <==> c.log.Attached?
  {
    hide EvictAll, AppendTo;
    if r.SetRequest? {
      var a := AppendTo(c.log, Put(r.key, r.value));
      EvictAllKeepsLog(c.(log := a.log, outbox := c.outbox + [Put(r.key, r.value)],
                          items := [Item(r.key, r.value)] + c.items), true);
    }
  }

  lemma {:induction false} LogStaysAttached(c: Cache, rs: seq<Request>)
    ensures ServeAll(c, rs).log.Attached? <==> c.log.Attached?
    decreases rs
  {
    hide Serve;
    if rs != [] {
      ServeKeepsLog(c, rs[0]);
      LogStaysAttached(Serve(c, rs[0]), rs[1..]);
    }
  }
}
