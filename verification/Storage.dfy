/** The in-memory engine in its own form: list nodes shared between a recency list and an index
    from key to node, both updated in place. Each method is proved against `LruCache`. */
module Storage {
  import opened ByteStrings
  import opened KeyValue
  import opened Records
  import opened Recovery
  import opened WriteAheadLog
  import opened ReplicationLink
  import Counting
  import L = LruCache
  import WalRuns

  class Node {
    const key: Bytes
    var value: Bytes

    constructor (key: Bytes, value: Bytes)
      ensures this.key == key && this.value == value
    {
      this.key, this.value := key, value;
    }
  }

  ghost predicate KeysDiffer(items: seq<Node>) {
    forall i, j :: 0 <= i < j < |items| ==> items[i].key != items[j].key
  }

  ghost predicate Indexed(items: seq<Node>, index: map<Bytes, Node>) {
    && (forall n :: n in items ==> n.key in index && index[n.key] == n)
    && (forall k :: k in index ==> index[k] in items && index[k].key == k)
  }

  /** List and index are a bijection on distinct keys. */
  ghost predicate Bijection(items: seq<Node>, index: map<Bytes, Node>) {
    KeysDiffer(items) && Indexed(items, index)
  }

  /** The list without the node at `p`. */
  function Dropped(items: seq<Node>, p: nat): (rest: seq<Node>)
    requires p < |items|
    ensures |rest| == |items| - 1
    ensures forall i :: 0 <= i < |rest| ==> rest[i] == items[if i < p then i else i + 1]
  {
    items[..p] + items[p + 1..]
  }

  lemma DroppedMembers(items: seq<Node>, p: nat, n: Node)
    requires p < |items|
    ensures n in Dropped(items, p) ==> n in items
    ensures n in items && n != items[p] ==> n in Dropped(items, p)
  {
    var rest := Dropped(items, p);
    hide Dropped;
    if n in items && n != items[p] {
      var i :| 0 <= i < |items| && items[i] == n;
      assert n == rest[if i < p then i else i - 1];
    }
  }

  lemma DroppedDiffer(items: seq<Node>, p: nat)
    requires p < |items| && KeysDiffer(items)
    ensures KeysDiffer(Dropped(items, p)) && forall n :: n in Dropped(items, p) ==> n.key != items[p].key
  {
    hide Dropped;
  }

  lemma PushDiffers(node: Node, items: seq<Node>)
    requires KeysDiffer(items) && forall n :: n in items ==> n.key != node.key
    ensures KeysDiffer([node] + items)
  {
    var t := [node] + items;
    assert forall i :: 0 < i < |t| ==> t[i] == items[i - 1] && items[i - 1] in items;
  }

  lemma BijectionMove(items: seq<Node>, index: map<Bytes, Node>, p: nat)
    requires Bijection(items, index) && p < |items|
    ensures var moved := [items[p]] + Dropped(items, p);
            Bijection(moved, index) && forall n :: n in moved <==> n in items
    ensures items[p] !in Dropped(items, p)
  {
    DroppedDiffer(items, p);
    PushDiffers(items[p], Dropped(items, p));
    hide Dropped, KeysDiffer;
    var moved := [items[p]] + Dropped(items, p);
    forall n: Node
      ensures n in moved <==> n in items
    {
      DroppedMembers(items, p, n);
    }
  }

  lemma BijectionDrop(items: seq<Node>, index: map<Bytes, Node>, p: nat)
    requires Bijection(items, index) && p < |items|
    ensures var rest := Dropped(items, p);
            Bijection(rest, index - {items[p].key}) && forall n :: n in rest ==> n in items
  {
    DroppedDiffer(items, p);
    hide Dropped, KeysDiffer;
    var rest := Dropped(items, p);
    forall n: Node
      ensures n in rest ==> n in items
      ensures n in items && n != items[p] ==> n in rest
    {
      DroppedMembers(items, p, n);
    }
    assert items[p] in items;
  }

  lemma BijectionPush(items: seq<Node>, index: map<Bytes, Node>, node: Node)
    requires Bijection(items, index) && node.key !in index
    ensures Bijection([node] + items, index[node.key := node])
  {
    PushDiffers(node, items);
    hide KeysDiffer;
  }

  ghost function Listing(nodes: seq<Node>): (s: seq<Item>)
    reads nodes
    ensures |s| == |nodes|
    ensures forall i :: 0 <= i < |nodes| ==> s[i] == Item(nodes[i].key, nodes[i].value)
  {
    seq(|nodes|, i requires 0 <= i < |nodes| reads nodes => Item(nodes[i].key, nodes[i].value))
  }

  lemma ListingDrop(nodes: seq<Node>, p: nat)
    requires p < |nodes|
    ensures Listing(Dropped(nodes, p)) == Listing(nodes)[..p] + Listing(nodes)[p + 1..]
  {
    hide Listing, Dropped;
  }

  lemma PushListing(node: Node, nodes: seq<Node>)
    ensures Listing([node] + nodes) == [Item(node.key, node.value)] + Listing(nodes)
  {
  }

  class Storage {
    var items: seq<Node>            // front = most recently used
    var index: map<Bytes, Node>     // key -> its list node
    const capacity: nat             // 0 = unbounded
    var replaying: bool
    var wal: Wal?
    var outbox: seq<Mutation>       // what the replicator has been handed

    ghost predicate Valid()
      reads `items, `index
    {
      Bijection(items, index)
    }

    ghost function LogState(): Log
      reads this, wal
    {
      if wal == null then Detached else wal.State()
    }

    ghost function State(): L.Cache
      reads this, items, wal
    {
      L.Cache(Listing(items), capacity, replaying, LogState(), outbox)
    }

    constructor (capacity: nat)
      ensures Valid() && State() == L.Cache([], capacity, false, Detached, [])
    {
      items, index, this.capacity := [], map[], capacity;
      replaying, wal, outbox := false, null, [];
    }

    /** The index is as large as the list, so the loops that compare its size to the capacity
        always find a back element to evict. */
    lemma SameSize()
      requires Valid()
      ensures |index| == |items|
    {
      var nodes := items;
      var keys := seq(|nodes|, i requires 0 <= i < |nodes| => nodes[i].key);
      forall k | k in index
        ensures k in keys
      {
        var i :| 0 <= i < |nodes| && nodes[i] == index[k];
        assert keys[i] == k;
      }
      forall k | k in keys
        ensures k in index
      {
        var i :| 0 <= i < |keys| && keys[i] == k;
        assert nodes[i] in items;
      }
      assert index.Keys == set k | k in keys;
      Counting.DistinctCount(keys);
    }

    lemma ListingDistinct()
      requires Valid()
      ensures DistinctKeys(Listing(items))
    {
    }

    /** The index finds the node that stands where the list has the key. */
    lemma FindsNode(key: Bytes)
      requires Valid()
      ensures key in index <==> L.Position(Listing(items), key) < |items|
      ensures key in index ==> items[L.Position(Listing(items), key)] == index[key]
    {
      var p := L.Position(Listing(items), key);
      if p < |items| {
        assert items[p] in items;
      }
      if key in index {
        var i :| 0 <= i < |items| && items[i] == index[key];
        assert Listing(items)[i].key == key;
      }
    }
  
    /** Write a mutation ahead, if a log is attached. */
    method LogAhead(op: Mutation) returns (done: bool)
      modifies wal
      ensures Appended(LogState(), done) == AppendTo(old(LogState()), op)
    {
      hide Encode, Taken;
      if wal == null {
        return true;
      }
      match op {
        case Put(k, v) => done := wal.AppendSet(k, v);
        case Remove(k) => done := wal.AppendDel(k);
      }
    }

    method DropBack()
      requires Valid() && items != []
      modifies `items, `index
      ensures Valid() && items == old(items)[..|old(items)| - 1]
      ensures Listing(items) == old(Listing(items))[..|items|]
    {
      BijectionDrop(items, index, |items| - 1);
      assert Dropped(items, |items| - 1) == items[..|items| - 1];
      index := index - {items[|items| - 1].key};
      items := items[..|items| - 1];
    }

    /** Drop the least recently used entry; a logged eviction that cannot be written drops
        nothing. */
    method EvictLru(logged: bool) returns (done: bool)
      requires Valid() && items != []
      modifies this, wal
      ensures Valid() && wal == old(wal)
      ensures L.Result(State(), done) == L.EvictLru(old(State()), logged)
      ensures items == if done then old(items)[..|old(items)| - 1] else old(items)
    {
      hide AppendTo, Valid;
      var evicted := items[|items| - 1].key;
      done := true;
      if logged {
        done := LogAhead(Remove(evicted));
        if !done {
          return;
        }
        outbox := outbox + [Remove(evicted)];
      }
      DropBack();
    }

    /** Make an entry the most recently used one, with `value`. */
    method Touch(node: Node, value: Bytes)
      requires Valid() && node in items
      modifies `items, node`value
      ensures Valid() && forall n :: n in items <==> n in old(items)
      ensures var was := old(Listing(items)); var p := L.Position(was, node.key);
              p < |was| && Listing(items) == L.Touch(was, p, value)
    {
      hide Bijection, L.Position, Listing, Dropped;
      var p := Where(node);
      BijectionMove(items, index, p);
      ListingDrop(items, p);
      var rest := Dropped(items, p);
      node.value := value;
      assert Listing(rest) == old(Listing(rest));
      items := [node] + rest;
      PushListing(node, rest);
    }

    /** Where a node stands in the list; the iterator held by the index knows this directly. */
    method Where(node: Node) returns (p: nat)
      requires Valid() && node in items
      ensures p == L.Position(Listing(items), node.key)
      ensures p < |items| && items[p] == node
    {
      FindsNode(node.key);
      p :| 0 <= p < |items| && items[p] == node;
      SamePlace(node, p);
    }

    lemma SamePlace(node: Node, p: nat)
      requires Valid() && p < |items| && items[p] == node
      ensures p == L.Position(Listing(items), node.key)
    {
      assert Listing(items)[p].key == node.key;
    }

    method PushFront(key: Bytes, value: Bytes)
      requires Valid() && key !in index
      modifies `items, `index
      ensures Valid() && |items| == |old(items)| + 1 && fresh(items[0]) && items[1..] == old(items)
      ensures Listing(items) == [Item(key, value)] + old(Listing(items))
    {
      hide Bijection, Listing;
      var node := new Node(key, value);
      BijectionPush(items, index, node);
      PushListing(node, items);
      items := [node] + items;
      index := index[key := node];
    }

    /** The eviction loop shared by an insert and by the end of a replay. */
    method EvictExcess(logged: bool)
      requires Valid()
      modifies this, wal
      ensures Valid() && wal == old(wal) && items <= old(items)
      ensures State() == L.EvictAll(old(State()), logged)
    {
      hide Valid, AppendTo;
      SameSize();
      while capacity > 0 && |index| > capacity
        invariant Valid() && wal == old(wal) && |index| == |items| && items <= old(items)
        invariant L.EvictAll(State(), logged) == L.EvictAll(old(State()), logged)
        decreases |items|
      {
        var done := EvictLru(logged);
        if !done {
          return;
        }
        SameSize();
      }
    }

    method Set(key: Bytes, value: Bytes) returns (done: bool)
      requires Valid()
      modifies this, items, wal
      ensures Valid() && wal == old(wal)
      ensures forall n :: n in items ==> n in old(items) || fresh(n)
      ensures L.Result(State(), done) == L.Set(old(State()), key, value)
    {
      hide Valid, AppendTo, L.EvictAll, L.Position, L.Touch;
      done := LogAhead(Put(key, value));
      if !done {
        return;
      }
      FindsNode(key);
      outbox := outbox + [Put(key, value)];
      if key in index {
        NodeIsListed(key);
        Touch(index[key], value);
        return;
      }
      PushFront(key, value);
      if !replaying {
        EvictExcess(true);
      }
    }

    lemma NodeIsListed(key: Bytes)
      requires Valid() && key in index
      ensures index[key] in items && index[key].key == key
    {
    }

    method Get(key: Bytes) returns (r: Option<Bytes>)
      requires Valid()
      modifies `items, items
      ensures Valid() && forall n :: n in items <==> n in old(items)
      ensures State() == L.Get(old(State()), key)
      ensures r == Find(L.View(old(State())), key)
    {
      hide Valid, L.Position, L.Touch, L.View;
      FindsNode(key);
      ListingDistinct();
      L.HasIsContents(State(), key);
      if key !in index {
        return None;
      }
      NodeIsListed(key);
      r := Some(index[key].value);
      Touch(index[key], index[key].value);
    }

    method Del(key: Bytes) returns (removed: nat, durable: bool)
      requires Valid()
      modifies this, wal
      ensures Valid() && wal == old(wal) && forall n :: n in items ==> n in old(items)
      ensures L.Result(State(), durable) == L.Del(old(State()), key)
      ensures removed == if durable && L.Has(old(State()), key) then 1 else 0
    {
      hide Valid, AppendTo, L.Position;
      FindsNode(key);
      if key !in index {
        return 0, true;
      }
      durable := LogAhead(Remove(key));
      if !durable {
        return 0, false;
      }
      outbox := outbox + [Remove(key)];
      Erase(key);
      removed := 1;
    }

    method Erase(key: Bytes)
      requires Valid() && key in index
      modifies `items, `index
      ensures Valid() && forall n :: n in items ==> n in old(items)
      ensures var was := old(Listing(items)); var p := L.Position(was, key);
              p < |was| && Listing(items) == was[..p] + was[p + 1..]
    {
      hide Bijection, L.Position, Listing, Dropped;
      NodeIsListed(key);
      var p := Where(index[key]);
      BijectionDrop(items, index, p);
      ListingDrop(items, p);
      items := Dropped(items, p);
      index := index - {key};
    }

    method Exists(key: Bytes) returns (b: bool)
      requires Valid()
      ensures b <==> L.Has(State(), key)
    {
      FindsNode(key);
      b := key in index;
    }

    /** Forget everything; the log is not told. */
    method Clear()
      modifies `items, `index
      ensures Valid() && State() == old(State()).(items := [])
    {
      items, index := [], map[];
    }

    /** The consistent copy that a follower's full sync starts from, most recent first, and in
        the same critical section the start of its stream. */
    method SnapshotLocked(link: LinkState) returns (copy: seq<Item>)
      modifies link
      ensures copy == State().items && State() == old(State())
      ensures link.Current() == OnCut(old(link.Current()))
    {
      copy := [];
      for i := 0 to |items|
        invariant copy == Listing(items)[..i]
        invariant link.Current() == old(link.Current())
      {
        copy := copy + [Item(items[i].key, items[i].value)];
      }
      link.StartStreaming();
    }

    method SetReplaying(on: bool)
      requires Valid()
      modifies this, wal
      ensures Valid() && wal == old(wal) && items <= old(items)
      ensures State() == if on then old(State()).(replaying := true) else L.EndReplay(old(State()))
    {
      hide Valid, L.EvictAll;
      replaying := on;
      if !on {
        EvictExcess(false);
      }
    }
  }

  /** Feed a log file to a store in replay mode, record by record, until the first one that is
      cut short or damaged. */
  method ReplayInto(bytes: Bytes, store: Storage) returns (applied: nat)
    requires store.Valid() && store.wal == null
    modifies store, store.items
    ensures store.Valid() && applied == |History(bytes)|
    ensures store.State() == L.EndReplay(WalRuns.ReplayAll(old(store.State()).(replaying := true), History(bytes)))
  {
    hide WalRead, L.EvictAll, L.Set, L.Del, L.EndReplay;
    store.SetReplaying(true);
    applied := 0;
    var pos := 0;
    ghost var target := WalRuns.ReplayAll(store.State(), History(bytes));
    while true
      invariant store.Valid() && store.wal == null && pos <= |bytes|
      invariant forall n :: n in store.items ==> n in old(store.items) || fresh(n)
      invariant WalRuns.ReplayAll(store.State(), Scan(bytes, pos)) == target
      invariant applied + |Scan(bytes, pos)| == |History(bytes)|
      decreases |bytes| - pos
    {
      var r := WalRead(bytes, pos);
      if r.None? {
        break;
      }
      assert Scan(bytes, pos)[1..] == Scan(bytes, r.value.next);
      match r.value.item {
        case Put(k, v) =>
          var _ := store.Set(k, v);
        case Remove(k) =>
          var _, _ := store.Del(k);
      }
      applied := applied + 1;
      pos := r.value.next;
    }
    store.SetReplaying(false);
  }
}
