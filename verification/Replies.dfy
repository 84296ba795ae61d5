/** What a client may conclude from a reply, on any engine: bounded or not, with any log, good or
    failed, on a leader or a follower. */
module Replies {
  import opened ByteStrings
  import opened KeyValue
  import opened Records
  import opened Recovery
  import opened WriteAheadLog
  import opened Command
  import opened Execution
  import opened WalRuns
  import opened WalWrites
  import opened WalTrims

  /** Bytes are only ever added to a log. */
  predicate LogGrows(a: Log, b: Log) {
    a.Attached? ==> b.Attached? && a.bytes <= b.bytes
  }

  lemma {:induction false} EvictionsAdd(c: L.Cache, logged: bool)
    ensures var d := L.EvictAll(c, logged); c.outbox <= d.outbox && LogGrows(c.log, d.log)
    decreases |c.items|
  {
    hide Encode;
    if L.OverCapacity(c) {
      var r := L.EvictLru(c, logged);
      if r.done { EvictionsAdd(r.cache, logged); }
    }
  }

  lemma SetAdds(c: L.Cache, k: Bytes, v: Bytes)
    ensures var r := L.Set(c, k, v); var a := AppendTo(c.log, Put(k, v));
            && r.done == a.done
            && (a.done ==> c.outbox + [Put(k, v)] <= r.cache.outbox && LogGrows(a.log, r.cache.log))
            && (!a.done ==> r.cache == c.(log := a.log))
  {
    hide AppendTo, L.EvictAll, L.Position, L.Touch;
    var a := AppendTo(c.log, Put(k, v));
    EvictionsAdd(c.(log := a.log, outbox := c.outbox + [Put(k, v)], items := [Item(k, v)] + c.items), true);
  }

  lemma AppendedWhole(log: Log, op: Mutation)
    requires AppendTo(log, op).done
    ensures log.Attached? ==> AppendTo(log, op).log.Attached? && AppendTo(log, op).log.bytes == log.bytes + Encode(op)
  {
    hide Encode;
  }

  /** SET is answered OK exactly if the write was handed to the replicator; then it is in the
      contents and its record is in the log. It is answered with an error exactly if the log
      refused it; then nothing has changed but the log, which has failed. */
  lemma SetReply(c: L.Cache, k: Bytes, v: Bytes, follower: bool, link: bool)
    requires !follower || link
    ensures var x, op := Run(SetCommand(k, v), c, follower, link), Put(k, v);
            && !x.close && x.link == link
            && (x.reply == Okay <==> c.outbox + [op] <= x.cache.outbox)
            && (x.reply == Okay ==> k in L.View(x.cache) && L.View(x.cache)[k] == v)
            && (x.reply == Okay && c.log.Attached? ==> x.cache.log.Attached? && c.log.bytes + Encode(op) <= x.cache.log.bytes)
            && (x.reply == NotPersisted <==> x.reply != Okay)
            && (x.reply == NotPersisted <==> !AppendTo(c.log, op).done)
            && (x.reply == NotPersisted ==> x.cache == c.(log := x.cache.log) && Failed(x.cache.log))
            && (Failed(c.log) ==> x.reply == NotPersisted)
  {
    hide L.Set, L.View, AppendTo, Encode;
    SetAdds(c, k, v);
    var op := Put(k, v);
    if AppendTo(c.log, op).done {
      StoredInFront(c, k, v);
      AppendedWhole(c.log, op);
    }
    FailedRefuses(c.log, op);
  }

  lemma FailedRefuses(log: Log, op: Mutation)
    ensures Failed(log) ==> !AppendTo(log, op).done
  {
    hide Encode;
  }

  /** DEL is answered 1 exactly if the key was there and has been durably removed, 0 exactly if it
      was not there, and with an error if the log refused the removal. */
  lemma DelReply(c: L.Cache, k: Bytes, follower: bool, link: bool)
    requires DistinctKeys(c.items) && (!follower || link)
    ensures var x, op := Run(DelCommand(k), c, follower, link), Remove(k);
            && !x.close && x.link == link
            && (x.reply == Integer(1) <==> k in L.View(c) && x.cache.outbox == c.outbox + [op])
            && (x.reply == Integer(1) ==> L.View(x.cache) == L.View(c) - {k} && !Failed(x.cache.log))
            && (x.reply == Integer(1) && c.log.Attached? ==> x.cache.log.Attached? && x.cache.log.bytes == c.log.bytes + Encode(op))
            && (x.reply == Integer(0) <==> k !in L.View(c))
            && (x.reply == Integer(0) ==> x.cache == c)
            && (x.reply == NotPersisted <==> k in L.View(c) && !AppendTo(c.log, op).done)
            && (x.reply == NotPersisted ==> x.cache == c.(log := x.cache.log) && Failed(x.cache.log))
            && (x.reply == Integer(1) || x.reply == Integer(0) || x.reply == NotPersisted)
  {
    L.HasIsContents(c, k);
    hide AppendTo, Encode, L.Position, AsContents, DistinctKeys;
    var p := L.Position(c.items, k);
    if p < |c.items| {
      AsContentsDrop(c.items, p);
      if AppendTo(c.log, Remove(k)).done { AppendedWhole(c.log, Remove(k)); }
      assert c.outbox != c.outbox + [Remove(k)];
    }
  }

  /** GET and EXISTS answer from the contents, on any connection of any node. GET makes its key the
      most recently used one; EXISTS changes nothing at all. */
  lemma ReadReply(c: L.Cache, k: Bytes, follower: bool, link: bool)
    requires DistinctKeys(c.items)
    ensures var x := Run(GetCommand(k), c, follower, link);
            && x.reply == (if k in L.View(c) then Value(L.View(c)[k]) else Nil) && !x.close && x.link == link
            && x.cache == L.Serve(c, L.GetRequest(k))
            && (k in L.View(c) ==> x.cache.items != [] && x.cache.items[0] == Item(k, L.View(c)[k]))
    ensures var x := Run(ExistsCommand(k), c, follower, link);
            x.reply == Integer(if k in L.View(c) then 1 else 0) && !x.close && x.link == link && x.cache == c
  {
    L.HasIsContents(c, k);
    hide AsContents, DistinctKeys;
  }

  /** The connection is closed by QUIT and by nothing else. */
  lemma OnlyQuitCloses(cmd: Command, c: L.Cache, follower: bool, link: bool)
    ensures Run(cmd, c, follower, link).close <==> cmd == QuitCommand
  {
    hide L.Set, L.Get, L.Del, L.View, L.Has;
  }

  predicate IsError(r: Reply) {
    r.WrongArguments? || r.UnknownVerb? || r.NotPersisted? || r.ReadOnly? || r.NotAReplica? || r.AlreadySyncing? || r.NotInRaft?
  }

  /** A command answered with an error has changed no contents and handed nothing over, and the
      connection stays what it was. */
  lemma ErrorsChangeNothing(cmd: Command, c: L.Cache, follower: bool, link: bool)
    ensures var x := Run(cmd, c, follower, link);
            IsError(x.reply) ==> x.cache == c.(log := x.cache.log) && x.link == link && !x.close && (x.reply != NotPersisted ==> x.cache == c)
  {
    hide AppendTo, L.EvictAll, L.Position, L.Touch, L.View;
  }

  /** On a follower's ordinary connection every write is refused as such, malformed or not. */
  lemma WritesAreRefused(cmd: Command, c: L.Cache)
    ensures var x := Run(cmd, c, true, false);
            x.reply == ReadOnly <==> cmd.SetCommand? || cmd.DelCommand? || cmd == Malformed(SetName) || cmd == Malformed(DelName)
  {
    hide L.Set, L.Get, L.Del, L.View, L.Has;
  }

  /* ---------------- on the wire ---------------- */

  predicate StartsWithErr(b: Bytes) {
    |b| >= 4 && b[0] == 0x45 && b[1] == 0x52 && b[2] == 0x52 && b[3] == 0x20
  }

  lemma ErrText(s: string, more: Bytes)
    requires |s| >= 4
    ensures StartsWithErr(Text(s)) <==> s[0] == 'E' && s[1] == 'R' && s[2] == 'R' && s[3] == ' '
    ensures StartsWithErr(Text(s)) ==> StartsWithErr(Text(s) + more)
    ensures s[0] != 'E' ==> !StartsWithErr(Text(s) + more)
  {
    assert Text(s)[0] as int == if s[0] as int < 256 then s[0] as int else 0x3F;
    assert Text(s)[1] as int == if s[1] as int < 256 then s[1] as int else 0x3F;
    assert Text(s)[2] as int == if s[2] as int < 256 then s[2] as int else 0x3F;
    assert Text(s)[3] as int == if s[3] as int < 256 then s[3] as int else 0x3F;
    assert forall i :: 0 <= i < 4 ==> (Text(s) + more)[i] == Text(s)[i];
  }

  lemma LineErrors(r: Reply)
    requires r.WrongArguments? || r.UnknownVerb?
    ensures StartsWithErr(Render(r))
  {
    hide StartsWithErr, Text, NameText;
    match r
    case WrongArguments(n) => ErrText("ERR wrong number of arguments for '", Text(NameText(n)) + Text("' command"));
    case UnknownVerb(v) => ErrText("ERR unknown command '", v + Text("'"));
  }

  lemma ReplicaErrors(r: Reply)
    requires r.NotAReplica? || r.ReadOnly?
    ensures StartsWithErr(Render(r))
  {
    hide StartsWithErr, Text;
    match r
    case NotAReplica => ErrText("ERR __REPLSYNC__ is only ", Text("valid on a read-only replica"));
    case ReadOnly => ErrText("ERR READONLY this node ", Text("is a read-only replica"));
  }

  lemma SyncError()
    ensures StartsWithErr(Render(AlreadySyncing))
  {
    hide StartsWithErr, Text;
    ErrText("ERR replication sync already ", Text("in progress on this connection"));
  }

  lemma PlainErrors(r: Reply)
    requires r.NotPersisted? || r.NotInRaft?
    ensures StartsWithErr(Render(r))
  {
    hide StartsWithErr, Text;
    match r
    case NotPersisted => ErrText("ERR write failed: data not persisted", []);
    case NotInRaft => ErrText("ERR this node is ", Text("not part of a Raft cluster"));
  }

  lemma OtherTexts(n: nat)
    ensures !StartsWithErr(Render(Silence)) && !StartsWithErr(Render(Okay)) && !StartsWithErr(Render(Nil))
    ensures !StartsWithErr(Render(Pong)) && !StartsWithErr(Render(Standalone)) && !StartsWithErr(Render(Integer(n)))
  {
    hide Text, Numeral;
    ErrText("(nil)", []);
    ErrText("PONG", []);
    ErrText("standalone (not a Raft cluster)", []);
    ErrText("(integer) ", Numeral(n));
  }

  /** Errors, and of the other replies no fixed one, start with "ERR ". */
  lemma ErrorsAreMarked(r: Reply)
    ensures IsError(r) ==> StartsWithErr(Render(r))
    ensures !IsError(r) && !r.Value? ==> !StartsWithErr(Render(r))
  {
    hide StartsWithErr, Render;
    OtherTexts(if r.Integer? then r.n else 0);
    if r.NotPersisted? || r.NotInRaft? { PlainErrors(r); } else if r.WrongArguments? || r.UnknownVerb? { LineErrors(r); } else if r.NotAReplica? || r.ReadOnly? { ReplicaErrors(r); } else if IsError(r) { SyncError(); }
  }

  /** The replies of the data commands, byte by byte. */
  lemma RepliesOnTheWire(v: Bytes, n: nat)
    ensures Render(Okay) == [0x4F, 0x4B] && Render(Pong) == [0x50, 0x4F, 0x4E, 0x47]
    ensures Render(Nil) == [0x28, 0x6E, 0x69, 0x6C, 0x29]
    ensures Render(Value(v)) == v && Render(Silence) == []
    ensures Render(Integer(n)) == [0x28, 0x69, 0x6E, 0x74, 0x65, 0x67, 0x65, 0x72, 0x29, 0x20] + Numeral(n)
  {
    hide Numeral;
    IntegerText();
  }

  lemma IntegerText()
    ensures Text("(integer) ") == [0x28, 0x69, 0x6E, 0x74, 0x65, 0x67, 0x65, 0x72, 0x29, 0x20]
  {
  }

  /* ---------------- what a restart keeps ---------------- */

  /** The list that a replay builds starts with the key written last. */
  lemma LastWriteInFront(f: Bytes, g: Bytes, capacity: nat, k: Bytes, v: Bytes)
    requires History(g) == History(f) + [Put(k, v)]
    ensures Replayed(g, capacity) != [] && Replayed(g, capacity)[0] == Item(k, v)
  {
    hide History, Replaying, ReplayOne;
    var c, op := ReplayAll(Fresh(capacity), History(f)), Put(k, v);
    Replays(capacity);
    ReplayApplies(Fresh(capacity), History(f));
    ReplayAllConcat(Fresh(capacity), History(f), [op]);
    assert ReplayAll(c, [op]) == ReplayOne(c, op) by { assert [op][1..] == []; }
    ReplayPut(c, k, v);
  }

  lemma Replays(capacity: nat)
    ensures Replaying(Fresh(capacity))
  {
  }

  lemma FrontIsServed(f: Bytes, capacity: nat, room: nat, k: Bytes, v: Bytes)
    requires Replayed(f, capacity) != [] && Replayed(f, capacity)[0] == Item(k, v)
    ensures var m := L.View(Load(f, capacity, room)); k in m && m[k] == v
  {
    hide Load, Replayed, Recovered;
    LoadIsFront(f, capacity, room);
    var all := Replayed(f, capacity);
    assert all[..Kept(capacity, |all|)][0] == all[0];
  }

  /** How much of an acknowledged SET is in the log: its own record at least. */
  lemma AcknowledgedIsWritten(c: L.Cache, k: Bytes, v: Bytes)
    requires Usable(c) && c.log.Attached? && c.log.ok && Clean(c.log.bytes) && FieldOk(k) && FieldOk(v)
    requires Run(SetCommand(k, v), c, false, false).reply == Okay
    ensures var ops := Writes(c, L.SetRequest(k, v)); var d := L.Set(c, k, v).cache;
            && d.log.Attached? && ops != [] && ops[0] == Put(k, v)
            && (History(d.log.bytes) == History(c.log.bytes) + [ops[0]] || History(d.log.bytes) == History(c.log.bytes) + ops)
  {
    hide L.Set, Run, Writes, Usable, Encode, Clean, L.View, Shaped, History, FieldOk, Wrote, L.Serve;
    var r := L.SetRequest(k, v);
    AcknowledgedBytes(c, k, v);
    ServeWrites(c, r);
    WritesShaped(c, r);
    WrittenKeys(c, k, v);
    assert forall op :: op in Writes(c, r) ==> Storable(op) by { ShapedStorable(L.View(c), c.capacity, Writes(c, r)); }
    WroteFirst(c, Writes(c, r), L.Serve(c, r));
  }

  lemma AcknowledgedBytes(c: L.Cache, k: Bytes, v: Bytes)
    requires c.log.Attached? && Run(SetCommand(k, v), c, false, false).reply == Okay
    ensures var d := L.Set(c, k, v).cache;
            d == L.Serve(c, L.SetRequest(k, v)) && d.log.Attached? && c.log.bytes + Encode(Put(k, v)) <= d.log.bytes
  {
    SetReply(c, k, v, false, false);
    hide L.Set, Encode;
  }

  lemma WroteFirst(c: L.Cache, ops: seq<Mutation>, d: L.Cache)
    requires Wrote(c, ops, d) && Clean(c.log.bytes) && 1 <= |ops| <= 2 && forall op :: op in ops ==> Storable(op)
    requires c.log.bytes + Encode(ops[0]) <= d.log.bytes
    ensures History(d.log.bytes) == History(c.log.bytes) + [ops[0]] || History(d.log.bytes) == History(c.log.bytes) + ops
  {
    hide *;
    WroteBytes(c, ops, d);
    FirstKept(c.log.bytes, ops, |d.log.bytes| - |c.log.bytes|);
  }

  lemma FirstKept(f: Bytes, ops: seq<Mutation>, n: nat)
    requires Clean(f) && 1 <= |ops| <= 2 && forall op :: op in ops ==> Storable(op)
    requires |Encode(ops[0])| <= n <= |EncodeAll(ops)|
    ensures var g := f + EncodeAll(ops)[..n]; History(g) == History(f) + [ops[0]] || History(g) == History(f) + ops
  {
    FirstArrived(ops, n);
    hide *;
    TornPrefix(f, ops, n);
  }

  lemma WroteBytes(c: L.Cache, ops: seq<Mutation>, d: L.Cache)
    requires Wrote(c, ops, d)
    ensures c.log.Attached? && d.log.Attached?
    ensures var n := |d.log.bytes| - |c.log.bytes|;
            0 <= n <= |EncodeAll(ops)| && d.log.bytes == c.log.bytes + EncodeAll(ops)[..n]
  {
    hide EncodeAll, Encode, L.View, Apply;
    assert EncodeAll(ops)[..|EncodeAll(ops)|] == EncodeAll(ops);
  }

  lemma FirstArrived(ops: seq<Mutation>, n: nat)
    requires 1 <= |ops| <= 2 && n >= |Encode(ops[0])|
    ensures ops[..Complete(ops, n)] == [ops[0]] || ops[..Complete(ops, n)] == ops
  {
    hide Encode;
    var j := Complete(ops, n);
    assert j >= 1;
    assert ops[..1] == [ops[0]] && ops[..|ops|] == ops;
  }

  /** A SET answered OK survives: whatever happens right after it, a restart serves it, also if the
      log failed while it evicted, and whatever an earlier start had trimmed. */
  lemma AcknowledgedSetSurvives(c: L.Cache, k: Bytes, v: Bytes, room: nat)
    requires Usable(c) && c.log.Attached? && c.log.ok && Clean(c.log.bytes) && FieldOk(k) && FieldOk(v)
    requires Run(SetCommand(k, v), c, false, false).reply == Okay
    ensures var d := Run(SetCommand(k, v), c, false, false).cache;
            d.log.Attached? && var m := L.View(Load(d.log.bytes, c.capacity, room)); k in m && m[k] == v
  {
    hide Run, L.Set, Writes, Usable, Clean, L.View, Load, Replayed, History, FieldOk, L.Serve;
    AcknowledgedIsWritten(c, k, v);
    WrittenKeys(c, k, v);
    SetRuns(c, k, v);
    var ops, f, g := Writes(c, L.SetRequest(k, v)), c.log.bytes, L.Set(c, k, v).cache.log.bytes;
    if History(g) == History(f) + [Put(k, v)] {
      LastWriteInFront(f, g, c.capacity, k, v);
    } else {
      assert ops == [Put(k, v), Remove(ops[1].key)];
      InFrontOfTwo(f, g, c.capacity, k, v, ops[1].key);
    }
    FrontIsServed(g, c.capacity, room, k, v);
  }

  lemma SetRuns(c: L.Cache, k: Bytes, v: Bytes)
    ensures Run(SetCommand(k, v), c, false, false).cache == L.Set(c, k, v).cache
  {
    hide L.Set;
  }

  lemma WrittenKeys(c: L.Cache, k: Bytes, v: Bytes)
    requires Usable(c) && !Failed(c.log) && FieldOk(k) && FieldOk(v)
    ensures var ops := Writes(c, L.SetRequest(k, v));
            1 <= |ops| <= 2 && ops[0] == Put(k, v) && (|ops| == 2 ==> ops[1] == Remove(ops[1].key) && ops[1].key != k)
  {
    WritesShaped(c, L.SetRequest(k, v));
    hide Usable, L.View, FieldOk, L.Has;
  }

  lemma InFrontOfTwo(f: Bytes, g: Bytes, capacity: nat, k: Bytes, v: Bytes, other: Bytes)
    requires History(g) == History(f) + [Put(k, v), Remove(other)] && other != k
    ensures Replayed(g, capacity) != [] && Replayed(g, capacity)[0] == Item(k, v)
  {
    hide History, Replaying, AppendTo, L.Touch;
    var c, a, b := ReplayAll(Fresh(capacity), History(f)), Put(k, v), Remove(other);
    Replays(capacity);
    ReplayApplies(Fresh(capacity), History(f));
    ReplayAllConcat(Fresh(capacity), History(f), [a, b]);
    ReplayTwo(c, a, b);
    ReplayOneApplies(c, a);
    ReplayPut(c, k, v);
    PutItemsFront(c.items, k, v);
    KeepsFront(ReplayOne(c, a), k, v, other);
  }

  lemma ReplayTwo(c: L.Cache, a: Mutation, b: Mutation)
    ensures ReplayAll(c, [a, b]) == ReplayOne(ReplayOne(c, a), b)
  {
    hide ReplayOne;
    assert [a, b][1..] == [b] && [b][1..] == [];
    assert ReplayAll(ReplayOne(c, a), [b]) == ReplayAll(ReplayOne(ReplayOne(c, a), b), []);
  }

  lemma PutItemsFront(all: seq<Item>, k: Bytes, v: Bytes)
    ensures var t := PutItems(all, k, v); t != [] && t[0] == Item(k, v)
  {
  }

  lemma KeepsFront(c: L.Cache, k: Bytes, v: Bytes, other: Bytes)
    requires c.items != [] && c.items[0] == Item(k, v) && other != k
    ensures var d := ReplayOne(c, Remove(other)); d.items != [] && d.items[0] == Item(k, v)
  {
    hide AppendTo;
  }

  /** A DEL answered 1 survives: a restart right after it does not serve the key. */
  lemma AcknowledgedDelSurvives(c: L.Cache, k: Bytes, room: nat)
    requires Usable(c) && c.log.Attached? && c.log.ok && Clean(c.log.bytes)
    requires Run(DelCommand(k), c, false, false).reply == Integer(1)
    ensures var d := Run(DelCommand(k), c, false, false).cache;
            d.log.Attached? && k !in L.View(Load(d.log.bytes, c.capacity, room))
  {
    DelReply(c, k, false, false);
    L.HasIsContents(c, k);
    KeyIsStorable(c, k);
    hide Run, Usable, Clean, L.View, Load, History, Encode, FieldOk, L.Has;
    var f, op := c.log.bytes, Remove(k);
    AppendWhole(f, op);
    ApplyAllLast(map[], History(f), op);
    NotServed(f + Encode(op), c.capacity, room, k);
  }

  lemma NotServed(f: Bytes, capacity: nat, room: nat, k: Bytes)
    requires k !in Recovered(f)
    ensures k !in L.View(Load(f, capacity, room))
  {
    hide Load, Replayed, Recovered;
    LoadIsFront(f, capacity, room);
    FrontIsSubset(Replayed(f, capacity), Kept(capacity, |Replayed(f, capacity)|), k);
  }

  lemma FrontIsSubset(all: seq<Item>, n: nat, k: Bytes)
    requires DistinctKeys(all) && n <= |all|
    ensures k in AsContents(all[..n]) ==> k in AsContents(all)
  {
    AsContentsHolds(all);
    DistinctParts(all, n);
    AsContentsHolds(all[..n]);
    hide AsContents, DistinctKeys;
    if k in AsContents(all[..n]) {
      var i :| 0 <= i < n && all[..n][i].key == k;
      assert all[i].key in AsContents(all);
    }
  }
}
