/** What "least recently used" means, without a list: every key carries the time of its last
    use, and the victim of an eviction is the key with the oldest one. */
module LruClock {
  import opened ByteStrings
  import opened KeyValue
  import opened WriteAheadLog
  import opened LruCache
  import opened WalRuns

  datatype Stamped = Stamped(value: Bytes, used: nat)

  type Entries = map<Bytes, Stamped>

  datatype Clocked = Clocked(entries: Entries, now: nat, capacity: nat)

  ghost predicate IsOldest(e: Entries, k: Bytes) {
    k in e && forall o :: o in e ==> e[k].used <= e[o].used
  }

  lemma {:induction false} OldestExists(e: Entries)
    requires e != map[]
    ensures exists k :: IsOldest(e, k)
    decreases |e|
  {
    var k :| k in e;
    if |e| == 1 {
      assert e - {k} == map[] by { assert |e - {k}| == 0; }
      assert forall o :: o in e ==> o in e - {k} || o == k;
      assert IsOldest(e, k);
    } else {
      var rest := e - {k};
      OldestExists(rest);
      var o :| IsOldest(rest, o);
      assert forall c :: c in e ==> c in rest || c == k;
      if e[k].used <= e[o].used {
        assert forall c :: c in rest ==> e[c] == rest[c];
        assert IsOldest(e, k);
      } else {
        assert IsOldest(e, o);
      }
    }
  }

  ghost function Oldest(e: Entries): (k: Bytes)
    requires e != map[]
    ensures IsOldest(e, k)
  {
    OldestExists(e);
    var k :| IsOldest(e, k);
    k
  }

  /** Use `key` now. */
  function Use(c: Clocked, key: Bytes, value: Bytes): Clocked {
    c.(entries := c.entries[key := Stamped(value, c.now)], now := c.now + 1)
  }

  /** Drop the oldest keys until `n` are left. */
  ghost function ShrinkTo(c: Clocked, n: nat): (r: Clocked)
    ensures r.capacity == c.capacity && r.now == c.now
    decreases |c.entries|
  {
    if |c.entries| > n
    then
      var victim := Oldest(c.entries);
      assert victim in c.entries;
      ShrinkTo(c.(entries := c.entries - {victim}), n)
    else c
  }

  ghost function Shrink(c: Clocked): Clocked {
    if c.capacity > 0 then ShrinkTo(c, c.capacity) else c
  }

  /** What the log let happen to a request: whether its mutation was taken, how many entries
      were left after the evictions that could be written, and whether the log has failed. */
  datatype Outcome = Outcome(done: bool, left: nat, failed: bool)

  /** The outcomes that a failing log may have, given whether it had failed before. Failure is
      for ever, it alone refuses anything, and an insert leaves exactly what fits unless the
      failure came in the middle of its evictions. */
  predicate Permitted(c: Clocked, r: Request, o: Outcome, was: bool) {
    && (was ==> o.failed)
    && match r
       case SetRequest(k, _) =>
         if !o.done then o.failed
         else !was && (k !in c.entries ==> Evicted(c.capacity, |c.entries| + 1, o.left, o.failed))
                   && (k in c.entries ==> !o.failed)
       case GetRequest(_) => o.done && o.failed == was
       case DelRequest(k) => o.done <==> k !in c.entries || !o.failed
  }

  predicate Evicted(capacity: nat, n: nat, left: nat, failed: bool) {
    if capacity == 0 || n <= capacity then left == n && !failed
    else if failed then capacity < left <= n
    else left == capacity
  }

  /** One request. A refused mutation changes nothing; an insert drops the oldest keys, as many
      as the log let go. */
  ghost function Tick(c: Clocked, r: Request, o: Outcome): Clocked {
    match r
    case SetRequest(k, v) =>
      if !o.done then c
      else if k in c.entries then Use(c, k, v)
      else ShrinkTo(Use(c, k, v), o.left)
    case GetRequest(k) => if k in c.entries then Use(c, k, c.entries[k].value) else c
    case DelRequest(k) => if o.done then c.(entries := c.entries - {k}) else c
  }

  ghost predicate PermittedAll(c: Clocked, rs: seq<Request>, os: seq<Outcome>, was: bool)
    requires |rs| == |os|
    decreases rs
  {
    rs == [] ||
    (Permitted(c, rs[0], os[0], was) && PermittedAll(Tick(c, rs[0], os[0]), rs[1..], os[1..], os[0].failed))
  }

  ghost function TickAll(c: Clocked, rs: seq<Request>, os: seq<Outcome>): Clocked
    requires |rs| == |os|
    decreases rs
  {
    if rs == [] then c else TickAll(Tick(c, rs[0], os[0]), rs[1..], os[1..])
  }

  /** One request when nothing fails: inserts drop the oldest keys down to the capacity. */
  ghost function GoodTick(c: Clocked, r: Request): Clocked {
    match r
    case SetRequest(k, v) => if k in c.entries then Use(c, k, v) else Shrink(Use(c, k, v))
    case GetRequest(k) => if k in c.entries then Use(c, k, c.entries[k].value) else c
    case DelRequest(k) => c.(entries := c.entries - {k})
  }

  ghost function GoodTickAll(c: Clocked, rs: seq<Request>): Clocked
    decreases rs
  {
    if rs == [] then c else GoodTickAll(GoodTick(c, rs[0]), rs[1..])
  }

  /** The list holds the stamped entries, most recent use first. */
  ghost predicate Sorted(items: seq<Item>, c: Clocked) {
    && Listed(items, c.entries)
    && (forall k :: k in c.entries ==> HasKey(items, k) && c.entries[k].used < c.now)
    && ByRecency(items, c.entries)
  }

  ghost predicate Listed(items: seq<Item>, e: Entries) {
    forall i :: 0 <= i < |items| ==> items[i].key in e && e[items[i].key].value == items[i].value
  }

  ghost predicate ByRecency(items: seq<Item>, e: Entries)
    requires Listed(items, e)
  {
    forall i, j :: 0 <= i < j < |items| ==> e[items[i].key].used > e[items[j].key].used
  }

  lemma SortedDistinct(items: seq<Item>, c: Clocked)
    requires Sorted(items, c)
    ensures DistinctKeys(items)
  {
  }

  lemma SortedSize(items: seq<Item>, c: Clocked)
    requires Sorted(items, c)
    ensures |items| == |c.entries|
  {
    SortedDistinct(items, c);
    AsContentsHolds(items);
    hide AsContents, DistinctKeys;
    forall k | k in c.entries
      ensures k in AsContents(items)
    {
      var i :| 0 <= i < |items| && items[i].key == k;
      assert items[i].key in AsContents(items);
    }
    forall k | k in AsContents(items)
      ensures k in c.entries
    {
      var i :| 0 <= i < |items| && items[i].key == k;
    }
    assert AsContents(items).Keys == c.entries.Keys;
  }

  lemma FrontKeepsOrder(items: seq<Item>, e: Entries, item: Item, now: nat)
    requires item.key !in e && Listed(items, e) && ByRecency(items, e)
    requires forall k :: k in e ==> e[k].used < now
    ensures var t, d := [item] + items, e[item.key := Stamped(item.value, now)];
            Listed(t, d) && ByRecency(t, d)
  {
    var t, d := [item] + items, e[item.key := Stamped(item.value, now)];
    assert forall i :: 0 < i < |t| ==> t[i] == items[i - 1];
    assert Listed(t, d);
  }

  lemma FrontKeepsKeys(items: seq<Item>, item: Item, k: Bytes)
    requires k == item.key || HasKey(items, k)
    ensures HasKey([item] + items, k)
  {
    var t := [item] + items;
    if k == item.key {
      assert t[0].key == k;
    } else {
      var i :| 0 <= i < |items| && items[i].key == k;
      assert t[i + 1].key == k;
    }
  }

  lemma UseInserts(items: seq<Item>, c: Clocked, key: Bytes, value: Bytes)
    requires Sorted(items, c) && key !in c.entries
    ensures Sorted([Item(key, value)] + items, Use(c, key, value))
  {
    FrontKeepsOrder(items, c.entries, Item(key, value), c.now);
    hide Listed, ByRecency;
    forall k | k in Use(c, key, value).entries
      ensures HasKey([Item(key, value)] + items, k)
    {
      FrontKeepsKeys(items, Item(key, value), k);
    }
  }

  lemma DropKeepsOrder(items: seq<Item>, e: Entries, p: nat)
    requires DistinctKeys(items) && p < |items| && Listed(items, e) && ByRecency(items, e)
    ensures var t, d := items[..p] + items[p + 1..], e - {items[p].key};
            Listed(t, d) && ByRecency(t, d)
  {
    var t, d := items[..p] + items[p + 1..], e - {items[p].key};
    assert forall i :: 0 <= i < |t| ==> t[i] == if i < p then items[i] else items[i + 1];
    assert Listed(t, d);
    forall i, j | 0 <= i < j < |t|
      ensures d[t[i].key].used > d[t[j].key].used
    {
      assert t[i].key in d && t[j].key in d;
    }
  }

  lemma DropKeepsKeys(items: seq<Item>, p: nat, k: Bytes)
    requires p < |items| && HasKey(items, k) && k != items[p].key
    ensures HasKey(items[..p] + items[p + 1..], k)
  {
    var t := items[..p] + items[p + 1..];
    var i :| 0 <= i < |items| && items[i].key == k;
    assert (if i < p then t[i] else t[i - 1]).key == k;
  }

  lemma DropKeepsSorted(items: seq<Item>, c: Clocked, p: nat)
    requires Sorted(items, c) && p < |items|
    ensures Sorted(items[..p] + items[p + 1..], c.(entries := c.entries - {items[p].key}))
  {
    SortedDistinct(items, c);
    DropKeepsOrder(items, c.entries, p);
    hide ByRecency, Listed;
    forall k | k in c.entries && k != items[p].key
      ensures HasKey(items[..p] + items[p + 1..], k)
    {
      DropKeepsKeys(items, p, k);
    }
  }

  /** Using a key that is at position `p` moves it to the front. */
  lemma UseMoves(items: seq<Item>, c: Clocked, p: nat, value: Bytes)
    requires Sorted(items, c) && p < |items|
    ensures Sorted(Touch(items, p, value), Use(c, items[p].key, value))
  {
    hide Sorted;
    DropKeepsSorted(items, c, p);
    var k := items[p].key;
    var d := c.(entries := c.entries - {k});
    UseInserts(items[..p] + items[p + 1..], d, k, value);
    assert Use(d, k, value) == Use(c, k, value);
  }

  /** The back of the list is the one key with the oldest use. */
  lemma BackIsOldest(items: seq<Item>, c: Clocked)
    requires Sorted(items, c) && items != []
    ensures c.entries != map[] && Oldest(c.entries) == items[|items| - 1].key
  {
    var last := items[|items| - 1].key;
    assert last in c.entries;
    var k := Oldest(c.entries);
    var i :| 0 <= i < |items| && items[i].key == k;
    assert IsOldest(c.entries, k);
    assert c.entries[k].used <= c.entries[last].used;
  }

  lemma {:induction false} ShrinkTakesFront(items: seq<Item>, c: Clocked, n: nat)
    requires Sorted(items, c) && n <= |items|
    ensures Sorted(items[..n], ShrinkTo(c, n))
    decreases |items|
  {
    hide Sorted, Oldest;
    SortedSize(items, c);
    if n < |items| {
      BackIsOldest(items, c);
      DropKeepsSorted(items, c, |items| - 1);
      var rest := items[..|items| - 1];
      assert rest + items[|items|..] == rest;
      ShrinkTakesFront(rest, c.(entries := c.entries - {Oldest(c.entries)}), n);
      assert rest[..n] == items[..n];
    } else {
      assert items[..n] == items;
    }
  }

  ghost predicate Related(c: Cache, k: Clocked) {
    Sorted(c.items, k) && c.capacity == k.capacity && !c.replaying
  }

  lemma PositionIsMembership(items: seq<Item>, c: Clocked, key: Bytes)
    requires Sorted(items, c)
    ensures Position(items, key) < |items| <==> key in c.entries
    ensures key in c.entries ==> c.entries[key].value == items[Position(items, key)].value
  {
    if key in c.entries {
      var i :| 0 <= i < |items| && items[i].key == key;
    }
  }

  /** What the engine's log lets happen to a request. */
  function OutcomeOf(c: Cache, r: Request): Outcome {
    Outcome(match r
            case SetRequest(k, v) => Set(c, k, v).done
            case GetRequest(_) => true
            case DelRequest(k) => Del(c, k).done,
            |Serve(c, r).items|,
            Failed(Serve(c, r).log))
  }

  function OutcomesOf(c: Cache, rs: seq<Request>): (os: seq<Outcome>)
    ensures |os| == |rs|
    decreases rs
  {
    if rs == [] then [] else [OutcomeOf(c, rs[0])] + OutcomesOf(Serve(c, rs[0]), rs[1..])
  }

  /** One request, whatever the log does: the list engine does what the stamps say. */
  lemma ServeRefines(c: Cache, k: Clocked, r: Request)
    requires Related(c, k)
    ensures Related(Serve(c, r), Tick(k, r, OutcomeOf(c, r)))
  {
    hide Serve, Tick, Related, OutcomeOf;
    match r
    case SetRequest(key, value) => SetRefines(c, k, key, value);
    case GetRequest(key) => GetRefines(c, k, key);
    case DelRequest(key) => DelRefines(c, k, key);
  }

  lemma GetRefines(c: Cache, k: Clocked, key: Bytes)
    requires Related(c, k)
    ensures var r := GetRequest(key); Related(Serve(c, r), Tick(k, r, OutcomeOf(c, r)))
  {
    PositionIsMembership(c.items, k, key);
    hide Sorted, Touch;
    var p := Position(c.items, key);
    if p < |c.items| { UseMoves(c.items, k, p, c.items[p].value); }
  }

  lemma DelRefines(c: Cache, k: Clocked, key: Bytes)
    requires Related(c, k)
    ensures var r := DelRequest(key); Related(Serve(c, r), Tick(k, r, OutcomeOf(c, r)))
  {
    PositionIsMembership(c.items, k, key);
    DelParts(c, key);
    hide Sorted, Del, Position;
    var p := Position(c.items, key);
    if p < |c.items| {
      DropKeepsSorted(c.items, k, p);
    } else {
      assert k.entries - {key} == k.entries;
    }
  }

  lemma DelParts(c: Cache, key: Bytes)
    ensures var d := Del(c, key); var p := Position(c.items, key);
            && d.cache.capacity == c.capacity && d.cache.replaying == c.replaying
            && (p == |c.items| ==> d.done)
            && d.cache.items == if d.done && p < |c.items| then c.items[..p] + c.items[p + 1..] else c.items
  {
    hide AppendTo, Position;
  }

  lemma SetRefines(c: Cache, k: Clocked, key: Bytes, value: Bytes)
    requires Related(c, k)
    ensures var r := SetRequest(key, value); Related(Serve(c, r), Tick(k, r, OutcomeOf(c, r)))
  {
    PositionIsMembership(c.items, k, key);
    hide Sorted, AppendTo, EvictAll, Position, ShrinkTo, Touch, Use;
    var p := Position(c.items, key);
    var a := AppendTo(c.log, Put(key, value));
    if a.done {
      if p < |c.items| {
        UseMoves(c.items, k, p, value);
        UseKeepsCapacity(k, key, value);
      } else {
        var c3 := c.(log := a.log, outbox := c.outbox + [Put(key, value)], items := [Item(key, value)] + c.items);
        InsertRefines(c3, k, key, value, c.items);
      }
    }
  }

  lemma UseKeepsCapacity(k: Clocked, key: Bytes, value: Bytes)
    ensures Use(k, key, value).capacity == k.capacity
  {
  }

  lemma InsertRefines(c: Cache, k: Clocked, key: Bytes, value: Bytes, was: seq<Item>)
    requires Sorted(was, k) && key !in k.entries && c.capacity == k.capacity && !c.replaying
    requires c.items == [Item(key, value)] + was
    ensures var d := EvictAll(c, true); Related(d, ShrinkTo(Use(k, key, value), |d.items|))
  {
    hide Sorted, EvictAll;
    UseInserts(was, k, key, value);
    EvictAllKeepsFront(c, true);
    var d := EvictAll(c, true);
    ShrinkTakesFront(c.items, Use(k, key, value), |d.items|);
    assert d.items == c.items[..|d.items|];
  }

  lemma ServePermitted(c: Cache, k: Clocked, r: Request)
    requires Related(c, k)
    ensures Permitted(k, r, OutcomeOf(c, r), Failed(c.log))
  {
    PositionIsMembership(c.items, k, r.key);
    SortedSize(c.items, k);
    hide Sorted, AppendTo, EvictAll, Position, Touch;
    if r.SetRequest? {
      var op := Put(r.key, r.value);
      var a := AppendTo(c.log, op);
      EvictAllKeepsFront(c.(log := a.log, outbox := c.outbox + [op], items := [Item(r.key, r.value)] + c.items), true);
    }
  }

  /** LRU over every run, whenever the log fails: at every moment the list is the stamped
      entries in order of last use over reads and writes, and every eviction has removed the key
      unused for longest. */
  lemma {:induction false} LruRefinesClock(c: Cache, k: Clocked, rs: seq<Request>)
    requires Related(c, k)
    ensures PermittedAll(k, rs, OutcomesOf(c, rs), Failed(c.log))
    ensures Related(ServeAll(c, rs), TickAll(k, rs, OutcomesOf(c, rs)))
    decreases rs
  {
    hide Related, Serve, Tick, Permitted;
    if rs != [] {
      ServeRefines(c, k, rs[0]);
      ServePermitted(c, k, rs[0]);
      LruRefinesClock(Serve(c, rs[0]), Tick(k, rs[0], OutcomeOf(c, rs[0])), rs[1..]);
      assert OutcomesOf(c, rs)[1..] == OutcomesOf(Serve(c, rs[0]), rs[1..]);
    }
  }

  /* ---------------- good logs ---------------- */

  /** A request that the log takes has the outcome that the capacity alone decides. */
  lemma GoodOutcome(k: Clocked, r: Request, o: Outcome, was: bool)
    requires Permitted(k, r, o, was) && !o.failed
    ensures Tick(k, r, o) == GoodTick(k, r)
  {
    hide Oldest;
  }

  lemma {:induction false} FailureLasts(k: Clocked, rs: seq<Request>, os: seq<Outcome>)
    requires |rs| == |os| && PermittedAll(k, rs, os, true) && rs != []
    ensures os[|os| - 1].failed
    decreases rs
  {
    hide Tick;
    if |rs| > 1 {
      FailureLasts(Tick(k, rs[0], os[0]), rs[1..], os[1..]);
    }
  }

  lemma {:induction false} GoodRun(k: Clocked, rs: seq<Request>, os: seq<Outcome>, was: bool)
    requires |rs| == |os| && PermittedAll(k, rs, os, was) && rs != [] && !os[|os| - 1].failed
    ensures TickAll(k, rs, os) == GoodTickAll(k, rs)
    decreases rs
  {
    hide Tick, GoodTick, Permitted;
    var next := Tick(k, rs[0], os[0]);
    if |rs| > 1 {
      if os[0].failed { FailureLasts(next, rs[1..], os[1..]); }
      GoodRun(next, rs[1..], os[1..], os[0].failed);
    } else {
      assert rs[1..] == [] && os[1..] == [];
    }
    GoodOutcome(k, rs[0], os[0], was);
  }

  lemma {:induction false} LastOutcome(c: Cache, rs: seq<Request>)
    requires rs != []
    ensures OutcomesOf(c, rs)[|rs| - 1].failed == Failed(ServeAll(c, rs).log)
    decreases rs
  {
    hide Serve;
    if |rs| > 1 {
      LastOutcome(Serve(c, rs[0]), rs[1..]);
    } else {
      assert rs[1..] == [];
    }
  }

  /** The corollary for runs whose log stays good: no outcomes to be told. */
  lemma GoodRunRefinesClock(c: Cache, k: Clocked, rs: seq<Request>)
    requires Related(c, k) && !Failed(ServeAll(c, rs).log)
    ensures Related(ServeAll(c, rs), GoodTickAll(k, rs))
  {
    hide Related, Serve, Tick, GoodTick;
    LruRefinesClock(c, k, rs);
    if rs != [] {
      LastOutcome(c, rs);
      GoodRun(k, rs, OutcomesOf(c, rs), Failed(c.log));
    }
  }

  /** Inserting into a full cache: the oldest key is another one, and it alone goes, unless the
      log refuses the insert or the eviction. */
  lemma VictimIsOldest(c: Cache, k: Clocked, key: Bytes, value: Bytes)
    requires Related(c, k) && !Has(c, key) && c.capacity > 0 && |c.items| == c.capacity
    ensures k.entries != map[] && Oldest(k.entries) != key && c.items[|c.items| - 1].key == Oldest(k.entries)
    ensures var r := Set(c, key, value);
            && (!r.done ==> r.cache.items == c.items)
            && (r.done && !Failed(r.cache.log) ==> r.cache.items == [Item(key, value)] + c.items[..|c.items| - 1])
            && (r.done && Failed(r.cache.log) ==> r.cache.items == [Item(key, value)] + c.items)
  {
    BackIsOldest(c.items, k);
    PositionIsMembership(c.items, k, key);
    hide Sorted, Oldest, Set, Position;
    InsertIntoFull(c, key, value);
  }

  lemma InsertIntoFull(c: Cache, key: Bytes, value: Bytes)
    requires !Has(c, key) && c.capacity > 0 && |c.items| == c.capacity && !c.replaying
    ensures var r := Set(c, key, value);
            && (!r.done ==> r.cache.items == c.items)
            && (r.done && !Failed(r.cache.log) ==> r.cache.items == [Item(key, value)] + c.items[..|c.items| - 1])
            && (r.done && Failed(r.cache.log) ==> r.cache.items == [Item(key, value)] + c.items)
  {
    hide AppendTo, Position, EvictAll, Touch;
    var a := AppendTo(c.log, Put(key, value));
    var front := [Item(key, value)] + c.items;
    EvictOne(c.(log := a.log, outbox := c.outbox + [Put(key, value)], items := front));
    assert front[..c.capacity] == [Item(key, value)] + c.items[..|c.items| - 1];
  }

  /* ---------------- where runs start ---------------- */

  const UNUSED: Clocked := Clocked(map[], 0, 0)

  lemma EmptyRelated(capacity: nat, log: Log, outbox: seq<Mutation>)
    ensures Related(Cache([], capacity, false, log, outbox), UNUSED.(capacity := capacity))
  {
  }

  /** A log's records, as the requests they came from. */
  function AsRequests(ops: seq<Mutation>): (rs: seq<Request>)
    ensures |rs| == |ops|
    decreases ops
  {
    if ops == [] then []
    else [match ops[0] case Put(k, v) => SetRequest(k, v) case Remove(k) => DelRequest(k)] + AsRequests(ops[1..])
  }

  lemma ReplayOneRefines(c: Cache, k: Clocked, op: Mutation)
    requires Replaying(c) && Sorted(c.items, k) && k.capacity == 0
    ensures var d := GoodTick(k, AsRequests([op])[0]);
            Replaying(ReplayOne(c, op)) && Sorted(ReplayOne(c, op).items, d) && d.capacity == 0
  {
    hide Sorted, Replaying, ReplayOne, View, Shrink;
    ReplayOneApplies(c, op);
    match op
    case Put(key, v) => ReplayPutRefines(c, k, key, v);
    case Remove(key) => ReplayRemoveRefines(c, k, key);
  }

  lemma ReplayPutRefines(c: Cache, k: Clocked, key: Bytes, v: Bytes)
    requires Replaying(c) && Sorted(c.items, k) && k.capacity == 0
    ensures var d := GoodTick(k, SetRequest(key, v)); Sorted(ReplayOne(c, Put(key, v)).items, d) && d.capacity == 0
  {
    PositionIsMembership(c.items, k, key);
    hide Sorted, Position, DistinctKeys, Touch;
    var p := Position(c.items, key);
    if p < |c.items| { UseMoves(c.items, k, p, v); } else { UseInserts(c.items, k, key, v); }
  }

  lemma ReplayRemoveRefines(c: Cache, k: Clocked, key: Bytes)
    requires Replaying(c) && Sorted(c.items, k) && k.capacity == 0
    ensures var d := GoodTick(k, DelRequest(key)); Sorted(ReplayOne(c, Remove(key)).items, d) && d.capacity == 0
  {
    PositionIsMembership(c.items, k, key);
    DelParts(c, key);
    DetachedDel(c, key);
    hide Sorted, Position, DistinctKeys, Del;
    var p := Position(c.items, key);
    if p < |c.items| { DropKeepsSorted(c.items, k, p); } else { assert k.entries - {key} == k.entries; }
  }

  lemma DetachedDel(c: Cache, key: Bytes)
    requires c.log.Detached?
    ensures Del(c, key).done
  {
    hide Position;
  }

  lemma {:induction false} ReplayRefines(c: Cache, k: Clocked, ops: seq<Mutation>)
    requires Replaying(c) && Sorted(c.items, k) && k.capacity == 0
    ensures Sorted(ReplayAll(c, ops).items, GoodTickAll(k, AsRequests(ops))) && GoodTickAll(k, AsRequests(ops)).capacity == 0
    decreases ops
  {
    hide Sorted, Replaying, ReplayOne, GoodTick;
    if ops != [] {
      ReplayOneRefines(c, k, ops[0]);
      assert AsRequests([ops[0]])[0] == AsRequests(ops)[0];
      assert AsRequests(ops)[1..] == AsRequests(ops[1..]);
      ReplayRefines(ReplayOne(c, ops[0]), GoodTick(k, AsRequests(ops)[0]), ops[1..]);
    }
  }

  /** The stamps of an engine started from a log: the order of the last write to each key, and
      of those the most recent that fit. */
  ghost function Started(bytes: Bytes, capacity: nat): Clocked {
    Shrink(GoodTickAll(UNUSED, AsRequests(Recovery.History(bytes))).(capacity := capacity))
  }

  lemma LoadRelated(bytes: Bytes, capacity: nat, room: nat)
    ensures Related(Load(bytes, capacity, room), Started(bytes, capacity))
  {
    hide Sorted, Load, ReplayAll, Recovery.History, Recovery.Recovered, AsContents, DistinctKeys;
    var h := Recovery.History(bytes);
    StartSorted(capacity);
    LoadedItems(bytes, capacity, room);
    ReplayRefines(Fresh(capacity), UNUSED, h);
    var all := ReplayAll(Fresh(capacity), h).items;
    var k := GoodTickAll(UNUSED, AsRequests(h));
    CapacityIsNoMatter(all, k, capacity);
    if capacity > 0 {
      var n := if |all| > capacity then capacity else |all|;
      ShrinkTakesFront(all, k.(capacity := capacity), n);
      SortedSize(all, k.(capacity := capacity));
    } else {
      assert all[..|all|] == all;
    }
  }

  lemma StartSorted(capacity: nat)
    ensures Sorted([], UNUSED) && Replaying(Fresh(capacity)) && Fresh(capacity).items == []
  {
  }

  lemma CapacityIsNoMatter(items: seq<Item>, k: Clocked, capacity: nat)
    requires Sorted(items, k)
    ensures Sorted(items, k.(capacity := capacity))
  {
  }

  /** From any log, on any device, through any requests. */
  lemma EveryRunIsLru(bytes: Bytes, capacity: nat, room: nat, rs: seq<Request>)
    ensures var c := Load(bytes, capacity, room);
            && PermittedAll(Started(bytes, capacity), rs, OutcomesOf(c, rs), false)
            && Related(ServeAll(c, rs), TickAll(Started(bytes, capacity), rs, OutcomesOf(c, rs)))
  {
    hide Related, Started, TickAll, PermittedAll, OutcomesOf, ServeAll, EndReplay, ReplayAll, Recovery.History;
    LoadRelated(bytes, capacity, room);
    LruRefinesClock(Load(bytes, capacity, room), Started(bytes, capacity), rs);
  }
}
