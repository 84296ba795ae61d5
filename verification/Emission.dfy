/** What the in-memory engine hands to the replicator: exactly the mutations it makes, evictions
    included, in the order it makes them. */
module Emission {
  import opened ByteStrings
  import opened KeyValue
  import opened WriteAheadLog
  import opened Command
  import opened Execution
  import opened LruCache

  /** Every stored pair could have come in on a line and can go out on one. */
  predicate PrintableItems(items: seq<Item>) {
    forall i :: 0 <= i < |items| ==> Printable(Put(items[i].key, items[i].value))
  }

  predicate Carriable(ops: seq<Mutation>) {
    forall op :: op in ops ==> Printable(op)
  }

  /** What was handed out on the way from `c` to `d`. */
  function Emitted(c: Cache, d: Cache): seq<Mutation>
    requires c.outbox <= d.outbox
  {
    d.outbox[|c.outbox|..]
  }

  predicate Sound(c: Cache) {
    DistinctKeys(c.items) && PrintableItems(c.items)
  }

  /** The contents changed by exactly the mutations handed out, all of which can be carried. */
  predicate Emits(c: Cache, d: Cache) {
    && c.outbox <= d.outbox
    && View(d) == ApplyAll(View(c), Emitted(c, d))
    && Carriable(Emitted(c, d)) && Sound(d)
  }

  lemma EmitsTransitive(a: Cache, b: Cache, c: Cache)
    requires Emits(a, b) && Emits(b, c)
    ensures Emits(a, c)
  {
    hide View, Sound;
    assert Emitted(a, c) == Emitted(a, b) + Emitted(b, c);
    ApplyAllConcat(View(a), Emitted(a, b), Emitted(b, c));
  }

  lemma EmitsNothing(c: Cache, d: Cache)
    requires Sound(d) && View(d) == View(c) && d.outbox == c.outbox
    ensures Emits(c, d)
  {
    assert Emitted(c, d) == [];
  }

  lemma EmitsOne(c: Cache, d: Cache, op: Mutation)
    requires Sound(d) && Printable(op) && d.outbox == c.outbox + [op] && View(d) == Apply(View(c), op)
    ensures Emits(c, d)
  {
    hide View, Sound;
    assert Emitted(c, d) == [op];
    ApplyAllLast(View(c), [], op);
    assert [] + [op] == [op];
  }

  lemma EvictEmits(c: Cache)
    requires Sound(c) && c.items != []
    ensures Emits(c, EvictLru(c, true).cache)
  {
    hide AppendTo;
    BackContents(c.items);
    var d := EvictLru(c, true).cache;
    var last := c.items[|c.items| - 1];
    assert Printable(Put(last.key, last.value));
    hide Printable;
    if EvictLru(c, true).done {
      assert forall i :: 0 <= i < |d.items| ==> d.items[i] == c.items[i];
      EmitsOne(c, d, Remove(last.key)) by { PrintableKey(last.key, last.value); }
    } else {
      EmitsNothing(c, d);
    }
  }

  lemma PrintableKey(k: Bytes, v: Bytes)
    requires Printable(Put(k, v))
    ensures Printable(Remove(k))
  {
  }

  lemma {:induction false} EvictAllEmits(c: Cache)
    requires Sound(c)
    ensures Emits(c, EvictAll(c, true))
    decreases |c.items|
  {
    hide Emits, EvictLru, Sound;
    if OverCapacity(c) {
      var r := EvictLru(c, true);
      EvictEmits(c);
      if r.done {
        assert Sound(r.cache) by { SoundAfter(c, r.cache); }
        EvictAllEmits(r.cache);
        EmitsTransitive(c, r.cache, EvictAll(r.cache, true));
      }
    } else {
      EmitsNothing(c, c);
    }
  }

  lemma SoundAfter(c: Cache, d: Cache)
    requires Emits(c, d)
    ensures Sound(d)
  {
  }

  lemma TouchSound(c: Cache, p: nat, v: Bytes)
    requires Sound(c) && p < |c.items| && Tight(v)
    ensures PrintableItems(Touch(c.items, p, v))
  {
    var t := Touch(c.items, p, v);
    assert Printable(Put(c.items[p].key, c.items[p].value));
    hide Tight, Solid;
    forall i | 0 < i < |t|
      ensures Printable(Put(t[i].key, t[i].value))
    {
      assert t[i] == if i <= p then c.items[i - 1] else c.items[i];
    }
  }

  lemma SetEmits(c: Cache, k: Bytes, v: Bytes)
    requires Sound(c) && Printable(Put(k, v)) && !c.replaying
    ensures Emits(c, Set(c, k, v).cache)
  {
    hide AppendTo, EvictAll, Position;
    var op := Put(k, v);
    var a := AppendTo(c.log, op);
    var p := Position(c.items, k);
    var d := Set(c, k, v).cache;
    if !a.done {
      EmitsNothing(c, d);
    } else if p < |c.items| {
      TouchContents(c.items, p, v);
      TouchSound(c, p, v);
      EmitsOne(c, d, op);
    } else {
      FrontContents(c.items, k, v);
      var c3 := c.(log := a.log, outbox := c.outbox + [op], items := [Item(k, v)] + c.items);
      FrontSound(c, k, v);
      EmitsOne(c, c3, op);
      EvictAllEmits(c3);
      EmitsTransitive(c, c3, EvictAll(c3, true));
    }
  }

  lemma FrontSound(c: Cache, k: Bytes, v: Bytes)
    requires Sound(c) && Printable(Put(k, v))
    ensures PrintableItems([Item(k, v)] + c.items)
  {
    hide Printable;
    var t := [Item(k, v)] + c.items;
    assert forall i :: 0 < i < |t| ==> t[i] == c.items[i - 1];
  }

  lemma GetEmits(c: Cache, k: Bytes)
    requires Sound(c)
    ensures Emits(c, Get(c, k))
  {
    hide Position, View;
    var p := Position(c.items, k);
    GetKeepsView(c, k);
    if p < |c.items| {
      assert Printable(Put(c.items[p].key, c.items[p].value));
      TouchSound(c, p, c.items[p].value);
    }
    EmitsNothing(c, Get(c, k));
  }

  lemma DelEmits(c: Cache, k: Bytes)
    requires Sound(c)
    ensures Emits(c, Del(c, k).cache)
  {
    hide AppendTo;
    var p := Position(c.items, k);
    var d := Del(c, k).cache;
    if p < |c.items| && AppendTo(c.log, Remove(k)).done {
      AsContentsDrop(c.items, p);
      DropDistinct(c.items, p);
      assert Printable(Put(c.items[p].key, c.items[p].value));
      DropSound(c, p);
      EmitsOne(c, d, Remove(k));
    } else {
      EmitsNothing(c, d);
    }
  }

  lemma DropSound(c: Cache, p: nat)
    requires Sound(c) && p < |c.items|
    ensures PrintableItems(c.items[..p] + c.items[p + 1..])
  {
    hide Printable;
    var t := c.items[..p] + c.items[p + 1..];
    assert forall i :: 0 <= i < |t| ==> t[i] == if i < p then c.items[i] else c.items[i + 1];
  }

  lemma ModeKept(cmd: Command, c: Cache)
    ensures Run(cmd, c, false, false).cache.replaying == c.replaying
  {
    hide AppendTo, EvictAll, Position;
    if cmd.SetCommand? {
      var op := Put(cmd.key, cmd.value);
      EvictAllKeepsFront(c.(log := AppendTo(c.log, op).log, outbox := c.outbox + [op],
                            items := [Item(cmd.key, cmd.value)] + c.items), true);
    }
  }

  /** Whatever line a client sends to a leader, the contents change by exactly the mutations
      handed to the replicator. */
  lemma LineEmits(line: Bytes, c: Cache)
    requires NewlineFree(line) && Sound(c) && !c.replaying
    ensures Emits(c, Run(Parse(line), c, false, false).cache)
    ensures !Run(Parse(line), c, false, false).cache.replaying
  {
    hide Set, Get, Del, Emits, Sound, Parse, NewlineFree;
    var cmd := Parse(line);
    ModeKept(cmd, c);
    match cmd
    case SetCommand(k, v) => ParsedIsPrintable(line, Put(k, v)); SetEmits(c, k, v);
    case GetCommand(k) => GetEmits(c, k);
    case DelCommand(k) => DelEmits(c, k);
    case _ => EmitsNothing(c, c);
  }
}
