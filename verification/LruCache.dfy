/** The in-memory engine as values: a recency list (front = most recently used) with its
    capacity, the log it writes ahead to, and the mutations it hands to the replicator. */
module LruCache {
  import opened ByteStrings
  import opened KeyValue
  import opened WriteAheadLog

  datatype Cache = Cache(items: seq<Item>, capacity: nat, replaying: bool, log: Log, outbox: seq<Mutation>)

  /** Where `key` stands in the list; its length when absent. */
  function Position(items: seq<Item>, key: Bytes): (p: nat)
    ensures p <= |items|
    ensures p < |items| ==> items[p].key == key
    ensures forall i :: 0 <= i < p ==> items[i].key != key
  {
    if items == [] || items[0].key == key then 0 else 1 + Position(items[1..], key)
  }

  predicate Has(c: Cache, key: Bytes) {
    Position(c.items, key) < |c.items|
  }

  /** Move the entry at `p` to the front, with `value`. */
  function Touch(items: seq<Item>, p: nat, value: Bytes): seq<Item>
    requires p < |items|
  {
    [Item(items[p].key, value)] + (items[..p] + items[p + 1..])
  }

  datatype Result = Result(cache: Cache, done: bool)

  /** Drop the back of the list. A logged eviction writes its delete first and gives up,
      dropping nothing, when that write fails. */
  function EvictLru(c: Cache, logged: bool): (r: Result)
    requires c.items != []
    ensures r.cache.capacity == c.capacity && r.cache.replaying == c.replaying
    ensures r.done ==> |r.cache.items| == |c.items| - 1
    ensures !r.done ==> r.cache.items == c.items
  {
    var evicted := c.items[|c.items| - 1].key;
    var a := if logged then AppendTo(c.log, Remove(evicted)) else Appended(c.log, true);
    if !a.done then Result(c.(log := a.log), false)
    else Result(c.(items := c.items[..|c.items| - 1], log := a.log,
                   outbox := if logged then c.outbox + [Remove(evicted)] else c.outbox), true)
  }

  predicate OverCapacity(c: Cache) {
    c.capacity > 0 && |c.items| > c.capacity
  }

  /** The eviction loop: until the list fits or an eviction fails. */
  function EvictAll(c: Cache, logged: bool): Cache
    decreases |c.items|
  {
    if OverCapacity(c) then
      var r := EvictLru(c, logged);
      if r.done then EvictAll(r.cache, logged) else r.cache
    else c
  }

  function Set(c: Cache, key: Bytes, value: Bytes): Result {
    var a := AppendTo(c.log, Put(key, value));
    var c1 := c.(log := a.log);
    if !a.done then Result(c1, false)
    else
      var p := Position(c.items, key);
      var c2 := c1.(outbox := c.outbox + [Put(key, value)]);
      if p < |c.items| then Result(c2.(items := Touch(c.items, p, value)), true)
      else
        var c3 := c2.(items := [Item(key, value)] + c.items);
        Result(if c.replaying then c3 else EvictAll(c3, true), true)
  }

  function Get(c: Cache, key: Bytes): Cache {
    var p := Position(c.items, key);
    if p < |c.items| then c.(items := Touch(c.items, p, c.items[p].value)) else c
  }

  /** `done` is false only when the durable delete of a present key failed. */
  function Del(c: Cache, key: Bytes): Result {
    var p := Position(c.items, key);
    if p == |c.items| then Result(c, true)
    else
      var a := AppendTo(c.log, Remove(key));
      if !a.done then Result(c.(log := a.log), false)
      else Result(c.(log := a.log, outbox := c.outbox + [Remove(key)],
                     items := c.items[..p] + c.items[p + 1..]), true)
  }

  /** Leaving replay mode trims the list to capacity without logging. */
  function EndReplay(c: Cache): Cache {
    EvictAll(c.(replaying := false), false)
  }

  datatype Request = SetRequest(key: Bytes, value: Bytes) | GetRequest(key: Bytes) | DelRequest(key: Bytes)

  function Serve(c: Cache, r: Request): Cache {
    match r
    case SetRequest(k, v) => Set(c, k, v).cache
    case GetRequest(k) => Get(c, k)
    case DelRequest(k) => Del(c, k).cache
  }

  function ServeAll(c: Cache, rs: seq<Request>): Cache
    decreases rs
  {
    if rs == [] then c else ServeAll(Serve(c, rs[0]), rs[1..])
  }

  function View(c: Cache): Contents {
    AsContents(c.items)
  }

  /* ---------------- effect on the contents ---------------- */

  lemma TouchContents(items: seq<Item>, p: nat, value: Bytes)
    requires DistinctKeys(items) && p < |items|
    ensures DistinctKeys(Touch(items, p, value))
    ensures AsContents(Touch(items, p, value)) == AsContents(items)[items[p].key := value]
    ensures |Touch(items, p, value)| == |items|
  {
    hide AsContents;
    AsContentsDrop(items, p);
    DropDistinct(items, p);
    var rest := items[..p] + items[p + 1..];
    AsContentsHead(Touch(items, p, value), Item(items[p].key, value), rest);
    assert forall i :: 0 <= i < |rest| ==> rest[i] == items[if i < p then i else i + 1];
  }

  lemma FrontContents(items: seq<Item>, key: Bytes, value: Bytes)
    requires DistinctKeys(items) && Position(items, key) == |items|
    ensures DistinctKeys([Item(key, value)] + items)
    ensures AsContents([Item(key, value)] + items) == AsContents(items)[key := value]
  {
    assert ([Item(key, value)] + items)[1..] == items;
  }

  lemma BackContents(items: seq<Item>)
    requires DistinctKeys(items) && items != []
    ensures var rest := items[..|items| - 1];
            DistinctKeys(rest) && AsContents(rest) == AsContents(items) - {items[|items| - 1].key}
  {
    AsContentsDrop(items, |items| - 1);
    DropDistinct(items, |items| - 1);
    assert items[..|items| - 1] + items[|items|..] == items[..|items| - 1];
  }

  lemma HasIsContents(c: Cache, key: Bytes)
    requires DistinctKeys(c.items)
    ensures Has(c, key) <==> key in View(c)
    ensures Has(c, key) ==> View(c)[key] == c.items[Position(c.items, key)].value
  {
    AsContentsHolds(c.items);
  }

  /** A read leaves the contents alone. */
  lemma GetKeepsView(c: Cache, key: Bytes)
    requires DistinctKeys(c.items)
    ensures var d := Get(c, key);
            View(d) == View(c) && DistinctKeys(d.items) && |d.items| == |c.items| && d == c.(items := d.items)
  {
    var p := Position(c.items, key);
    hide Touch, Position;
    if p < |c.items| {
      AsContentsHolds(c.items);
      hide AsContents, DistinctKeys;
      TouchContents(c.items, p, c.items[p].value);
      assert View(c)[c.items[p].key := c.items[p].value] == View(c);
    }
  }

  /** The eviction loop keeps a front of the list, never less than fits, and more than fits only
      if the log has failed. */
  lemma {:induction false} EvictAllKeepsFront(c: Cache, logged: bool)
    ensures var d := EvictAll(c, logged);
            && d.items <= c.items && d.capacity == c.capacity && d.replaying == c.replaying
            && (!OverCapacity(c) ==> d == c)
            && (OverCapacity(c) ==> |d.items| >= c.capacity)
            && (OverCapacity(d) ==> logged && Failed(d.log))
            && (!Failed(c.log) && Failed(d.log) ==> OverCapacity(d))
    decreases |c.items|
  {
    hide AppendTo;
    if OverCapacity(c) {
      var r := EvictLru(c, logged);
      if r.done { EvictAllKeepsFront(r.cache, logged); }
    }
  }

  /** One entry too many: one eviction, if its record can be written. */
  lemma EvictOne(c: Cache)
    requires c.capacity > 0 && |c.items| == c.capacity + 1
    ensures var d := EvictAll(c, true);
            && d.log == AppendTo(c.log, Remove(c.items[c.capacity].key)).log
            && d.items == if Failed(d.log) then c.items else c.items[..c.capacity]
  {
    hide AppendTo;
    var r := EvictLru(c, true);
    if r.done {
      assert EvictAll(r.cache, true) == r.cache;
    }
  }
}
