/** The abstract store that every engine in the system implements: a finite map, changed by
    one mutation at a time. */
module KeyValue {
  import opened ByteStrings

  datatype Option<+T> = None | Some(value: T) {
    predicate IsFailure() { None? }
    function PropagateFailure<U>(): Option<U> requires None? { None }
    function Extract(): T requires Some? { value }
  }

  type Contents = map<Bytes, Bytes>

  function Find(m: Contents, key: Bytes): Option<Bytes> {
    if key in m then Some(m[key]) else None
  }

  datatype Mutation = Put(key: Bytes, value: Bytes) | Remove(key: Bytes)

  function Apply(m: Contents, op: Mutation): Contents {
    match op
    case Put(k, v) => m[k := v]
    case Remove(k) => m - {k}
  }

  function ApplyAll(m: Contents, ops: seq<Mutation>): Contents
    decreases ops
  {
    if ops == [] then m else ApplyAll(Apply(m, ops[0]), ops[1..])
  }

  lemma {:induction false} ApplyAllConcat(m: Contents, a: seq<Mutation>, b: seq<Mutation>)
    ensures ApplyAll(m, a + b) == ApplyAll(ApplyAll(m, a), b)
    decreases a
  {
    if a == [] {
      assert a + b == b;
    } else {
      assert (a + b)[1..] == a[1..] + b;
      ApplyAllConcat(Apply(m, a[0]), a[1..], b);
    }
  }

  lemma ApplyAllLast(m: Contents, ops: seq<Mutation>, op: Mutation)
    ensures ApplyAll(m, ops + [op]) == Apply(ApplyAll(m, ops), op)
  {
    ApplyAllConcat(m, ops, [op]);
    assert [op][1..] == [];
  }

  /* ---------------- listings ---------------- */

  datatype Item = Item(key: Bytes, value: Bytes)

  predicate DistinctKeys(items: seq<Item>) {
    forall i, j :: 0 <= i < j < |items| ==> items[i].key != items[j].key
  }

  predicate HasKey(items: seq<Item>, key: Bytes) {
    exists i :: 0 <= i < |items| && items[i].key == key
  }

  /** The map a listing spells out. */
  function AsContents(items: seq<Item>): Contents {
    if items == [] then map[] else AsContents(items[1..])[items[0].key := items[0].value]
  }

  /** With distinct keys, the order of the listing does not matter to what it holds. */
  lemma {:induction false} AsContentsHolds(items: seq<Item>)
    requires DistinctKeys(items)
    ensures forall i :: 0 <= i < |items| ==> items[i].key in AsContents(items) && AsContents(items)[items[i].key] == items[i].value
    ensures forall k :: k in AsContents(items) ==> HasKey(items, k)
    ensures |AsContents(items)| == |items|
  {
    if items != [] {
      var rest := items[1..];
      assert forall i :: 0 <= i < |rest| ==> rest[i] == items[i + 1];
      AsContentsHolds(rest);
      forall k | k in AsContents(items)
        ensures HasKey(items, k)
      {
        if k == items[0].key {
        } else {
          var i :| 0 <= i < |rest| && rest[i].key == k;
          assert items[i + 1].key == k;
        }
      }
      assert !HasKey(rest, items[0].key);
    }
  }

  /** A listing with distinct keys that agrees with `m` key by key spells out `m`. */
  lemma ListsContents(items: seq<Item>, m: Contents)
    requires DistinctKeys(items)
    requires forall i :: 0 <= i < |items| ==> items[i].key in m && m[items[i].key] == items[i].value
    requires forall k :: k in m ==> HasKey(items, k)
    ensures AsContents(items) == m
  {
    hide AsContents;
    AsContentsHolds(items);
    var c := AsContents(items);
    forall k | k in m
      ensures k in c && c[k] == m[k]
    {
      var i :| 0 <= i < |items| && items[i].key == k;
      assert items[i].key in c;
    }
    forall k | k in c
      ensures k in m
    {
      var i :| 0 <= i < |items| && items[i].key == k;
    }
  }

  lemma DropDistinct(items: seq<Item>, p: nat)
    requires DistinctKeys(items) && p < |items|
    ensures DistinctKeys(items[..p] + items[p + 1..])
  {
  }

  lemma HeadFresh(items: seq<Item>)
    requires DistinctKeys(items) && items != []
    ensures DistinctKeys(items[1..]) && items[0].key !in AsContents(items[1..])
  {
    var tail := items[1..];
    assert forall i :: 0 <= i < |tail| ==> tail[i] == items[i + 1];
    AsContentsHolds(tail);
    assert !HasKey(tail, items[0].key);
  }

  lemma AsContentsHead(items: seq<Item>, head: Item, tail: seq<Item>)
    requires items == [head] + tail
    ensures AsContents(items) == AsContents(tail)[head.key := head.value]
  {
    assert items[1..] == tail;
  }

  lemma RemoveOther(m: Contents, k: Bytes, v: Bytes, gone: Bytes)
    ensures k != gone ==> (m - {gone})[k := v] == m[k := v] - {gone}
    ensures k !in m ==> m == m[k := v] - {k}
  {
  }

  /** Dropping one entry of a listing with distinct keys drops its key. */
  lemma {:induction false} AsContentsDrop(items: seq<Item>, p: nat)
    requires DistinctKeys(items) && p < |items|
    ensures AsContents(items[..p] + items[p + 1..]) == AsContents(items) - {items[p].key}
    decreases items
  {
    HeadFresh(items);
    var head, tail := items[0], items[1..];
    assert p > 0 ==> items[p].key != head.key;
    hide DistinctKeys, AsContents;
    AsContentsHead(items, head, tail);
    RemoveOther(AsContents(tail), head.key, head.value, items[p].key);
    if p == 0 {
      assert items[..0] + items[1..] == tail;
    } else {
      var rest := tail[..p - 1] + tail[p..];
      AsContentsDrop(tail, p - 1);
      assert tail[p - 1] == items[p];
      assert items[..p] + items[p + 1..] == [head] + rest;
      AsContentsHead(items[..p] + items[p + 1..], head, rest);
    }
  }
}
