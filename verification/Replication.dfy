/** Streaming a leader's mutations to a follower: the atomic cut between snapshot and stream, the
    bounded backlog, disconnects and resyncs. The wire is a byte stream that the follower
    receives in arbitrary chunks. */
module Replication {
  import opened ByteStrings
  import opened KeyValue
  import opened Command
  import opened Execution
  import opened Framing
  import opened Emission
  import opened ReplicationLink

  /* ---------------- the system ---------------- */

  /** Where the sender thread of the link is. */
  datatype Phase =
    | Offline
    | Greeted                           // handshake acknowledged, cut not yet made
    | Snapshotting                      // cut made, part of the snapshot still to send
    | Streaming                         // in the send loop
    | Holding(line: Bytes)              // popped, not yet sent
    | Failing                           // out of the loop, cleanup still to run
    | Ended                             // the thread has returned

  /** `pending` is what the request that holds the storage lock has still to hand to the link;
      `wire` is sent and not received; `inbuf` is received and not yet a whole line. The rest
      is about the current connection: the snapshot taken at its cut and how many of its pairs
      have been sent, the lines sent behind it, how many of all these the follower has
      executed, what the follower held before the first of them, and the leader's mutations
      since the cut. A follower takes a handshake from any client: `foreign` says that a
      connection other than the leader's has made one, and may write; `touched`, that such a
      connection has changed the follower since the leader's last handshake. */
  datatype World = World(leader: L.Cache, pending: seq<Mutation>, link: Link, phase: Phase, wire: Bytes,
                         follower: L.Cache, inbuf: Bytes, base: Contents,
                         snap: seq<Item>, pairs: nat, tail: seq<Bytes>, done: nat,
                         sinceCut: seq<Mutation>, foreign: bool, touched: bool)

  datatype Step =
    | Client(line: Bytes)       // a client line takes the leader's storage lock and runs
    | Hand                      // one enqueue of that request, a set or an eviction
    | Handshake                 // connect, __REPLSYNC__, OK
    | Cut                       // snapshot_locked with the callback that starts streaming
    | SendPair                  // one snapshot line
    | SnapshotDone
    | Pop
    | SendHeld
    | Ping                      // idle heartbeat
    | Resync                    // the loop sees the overflow flag
    | Break(partial: Bytes)     // a send fails after part of its line, or the link is lost
    | CleanUp
    | Shutdown                  // the replicator asks the thread to stop
    | Quit                      // the thread sees that before it connects
    | Deliver(bytes: nat)       // the follower receives a chunk and executes its lines
    | Visit(line: Bytes)        // a line of an ordinary client of the follower, a handshake included
    | Foreign(line: Bytes)      // a line of a client that has made one

  function PairLine(item: Item): Bytes {
    WireLine(Put(item.key, item.value))
  }

  predicate Connected(p: Phase) {
    p.Snapshotting? || p.Streaming? || p.Holding?
  }

  predicate Enabled(w: World, step: Step) {
    match step
    case Client(line) => NewlineFree(line) && w.pending == []
    case Hand => w.pending != []
    case Handshake => w.phase == Offline
    case Cut => w.phase == Greeted && w.pending == []
    case SendPair => w.phase.Snapshotting? && w.pairs < |w.snap|
    case SnapshotDone => w.phase.Snapshotting? && w.pairs >= |w.snap|
    case Pop => w.phase == Streaming && OnTake(w.link).outcome.Line?
    case SendHeld => w.phase.Holding?
    case Ping => w.phase == Streaming && OnTake(w.link).outcome.Idle?
    case Resync => w.phase == Streaming && OnTake(w.link).outcome.GiveUp?
    case Break(partial) => (Connected(w.phase) || w.phase == Greeted) && NewlineFree(partial)
    case CleanUp => w.phase == Failing
    case Shutdown => true
    case Quit => w.phase == Offline && w.link.stop
    case Deliver(n) => n <= |w.wire|
    case Visit(_) => true
    case Foreign(_) => w.foreign
  }

  /** The follower executing the lines of the leader's link. */
  function RunLines(c: L.Cache, lines: seq<Bytes>): L.Cache
    decreases lines
  {
    if lines == [] then c else RunLines(Run(Parse(lines[0]), c, true, true).cache, lines[1..])
  }

  /** The same on the abstract store. */
  function ApplyLines(m: Contents, lines: seq<Bytes>): Contents
    decreases lines
  {
    if lines == [] then m else ApplyLines(Effect(Parse(lines[0]), m), lines[1..])
  }

  function Send(w: World, line: Bytes): World {
    w.(wire := w.wire + Terminated(line))
  }

  function Next(w: World, step: Step): World
    requires Enabled(w, step)
  {
    match step
    case Client(line) =>
      var leader := Run(Parse(line), w.leader, false, false).cache;
      w.(leader := leader, pending := if w.leader.outbox <= leader.outbox then Emitted(w.leader, leader) else [])
    case Hand =>
      w.(link := OnEnqueue(w.link, WireLine(w.pending[0])), sinceCut := w.sinceCut + [w.pending[0]], pending := w.pending[1..])
    case Handshake =>
      w.(phase := Greeted, wire := [], follower := Run(SyncCommand, w.follower, true, false).cache, inbuf := [],
         base := map[], snap := [], pairs := 0, tail := [], done := 0, sinceCut := [], touched := false)
    case Cut => w.(phase := Snapshotting, link := OnCut(w.link), snap := w.leader.items, sinceCut := [])
    case SendPair => Send(w, PairLine(w.snap[w.pairs])).(pairs := w.pairs + 1)
    case SnapshotDone => w.(phase := Streaming)
    case Pop => w.(phase := Holding(OnTake(w.link).outcome.line), link := OnTake(w.link).link)
    case SendHeld => Send(w, w.phase.line).(phase := Streaming, tail := w.tail + [w.phase.line])
    case Ping => Send(w, PING_VERB).(link := OnTake(w.link).link, tail := w.tail + [PING_VERB])
    case Resync => w.(phase := Failing, link := OnTake(w.link).link)
    case Break(partial) => w.(phase := Failing, wire := w.wire + partial)
    case CleanUp => w.(phase := if w.link.stop then Ended else Offline, link := OnCleanUp(w.link))
    case Shutdown => w.(link := w.link.(stop := true))
    case Quit => w.(phase := Ended)
    case Deliver(n) =>
      var f := Split(w.inbuf + w.wire[..n]);
      w.(wire := w.wire[n..], inbuf := f.left, follower := RunLines(w.follower, f.lines), done := w.done + |f.lines|)
    case Visit(line) =>
      var x := Run(Parse(line), w.follower, true, false);
      w.(follower := x.cache, foreign := w.foreign || x.link, touched := w.touched || x.link)
    case Foreign(line) => w.(follower := Run(Parse(line), w.follower, true, true).cache, touched := true)
  }

  /** Before the first connection, with any contents on either side. */
  function Begin(leader: L.Cache, follower: L.Cache): World {
    World(leader, [], IDLE_LINK, Offline, [], follower, [], L.View(follower), [], 0, [], 0, [], false, false)
  }

  /* ---------------- the invariant ---------------- */

  function PairLines(items: seq<Item>): (r: seq<Bytes>)
    ensures |r| == |items| && forall i :: 0 <= i < |items| ==> r[i] == PairLine(items[i])
  {
    seq(|items|, i requires 0 <= i < |items| => PairLine(items[i]))
  }

  function OpLines(ops: seq<Mutation>): (r: seq<Bytes>)
    ensures |r| == |ops| && forall i :: 0 <= i < |ops| ==> r[i] == WireLine(ops[i])
  {
    seq(|ops|, i requires 0 <= i < |ops| => WireLine(ops[i]))
  }

  /** All complete lines put on the wire since the handshake. */
  function Sent(w: World): seq<Bytes>
    requires w.pairs <= |w.snap|
  {
    PairLines(w.snap)[..w.pairs] + w.tail
  }

  function Held(p: Phase): seq<Bytes> {
    if p.Holding? then [p.line] else []
  }

  /** Lines without the heartbeats among them. */
  function Unpinged(lines: seq<Bytes>): seq<Bytes> {
    if lines == [] then []
    else (if lines[0] == PING_VERB then [] else [lines[0]]) + Unpinged(lines[1..])
  }

  /** The live lines sent, the one held and the backlog are the mutations since the cut. Once
      the backlog has been dropped or the connection lost, what was sent is still a prefix. */
  predicate GapFree(w: World) {
    var ahead := Unpinged(w.tail) + Held(w.phase);
    if Connected(w.phase) && w.link.streaming then ahead + w.link.queue == OpLines(w.sinceCut)
    else ahead <= OpLines(w.sinceCut) && (Connected(w.phase) ==> w.link.queue == [])
  }

  /** The bytes on their way hold exactly the lines sent and not yet executed; while the
      connection is good nothing stands behind them. */
  predicate WireOk(w: World)
    requires w.pairs <= |w.snap|
  {
    var f := Split(w.inbuf + w.wire);
    && w.done <= |Sent(w)| && f.lines == Sent(w)[w.done..]
    && (Connected(w.phase) || w.phase == Greeted ==> f.left == [])
  }

  predicate Progress(w: World) {
    && w.pairs <= |w.snap|
    && (w.tail != [] || w.phase.Streaming? || w.phase.Holding? ==> w.pairs == |w.snap|)
    && (w.phase == Greeted ==> w.snap == [] && w.tail == [])
    && (Connected(w.phase) || w.phase == Greeted ==> w.base == map[])
    && (w.link.streaming ==> !w.link.resync)
    && (Connected(w.phase) ==> w.link.streaming || w.link.resync)
    && (!w.link.streaming ==> w.link.queue == [])
    && (w.phase == Offline || w.phase == Greeted || w.phase == Ended ==> !w.link.streaming)
    && (w.phase == Ended ==> w.link.stop)
  }

  /** The leader's contents are the snapshot and the mutations since, all of them printable. */
  predicate LeaderOk(w: World) {
    && Sound(w.leader) && !w.leader.replaying
    && Carriable(w.sinceCut) && Carriable(w.pending) && DistinctKeys(w.snap) && PrintableItems(w.snap)
    && (Connected(w.phase) ==> L.View(w.leader) == ApplyAll(AsContents(w.snap), w.sinceCut + w.pending))
  }

  predicate Caught(w: World)
    requires w.pairs <= |w.snap|
  {
    && Plain(w.follower)
    && w.done <= |Sent(w)| && (!w.touched ==> L.View(w.follower) == ApplyLines(w.base, Sent(w)[..w.done]))
  }

  predicate Inv(w: World) {
    Progress(w) && LeaderOk(w) && GapFree(w) && WireOk(w) && NewlineFree(w.inbuf) && Caught(w)
  }

  /* ---------------- one step ---------------- */

  lemma OpLinesConcat(a: seq<Mutation>, b: seq<Mutation>)
    ensures OpLines(a + b) == OpLines(a) + OpLines(b)
  {
    hide WireLine;
  }

  lemma {:induction false} UnpingedConcat(a: seq<Bytes>, b: seq<Bytes>)
    ensures Unpinged(a + b) == Unpinged(a) + Unpinged(b)
    decreases a
  {
    hide PING_VERB;
    if a == [] {
      assert a + b == b;
    } else {
      assert (a + b)[1..] == a[1..] + b;
      UnpingedConcat(a[1..], b);
    }
  }

  lemma UnpingedLast(a: seq<Bytes>, line: Bytes)
    ensures Unpinged(a + [line]) == Unpinged(a) + (if line == PING_VERB then [] else [line])
  {
    hide PING_VERB;
    UnpingedConcat(a, [line]);
    assert [line][1..] == [];
  }

  lemma WireLineIsNoPing(op: Mutation)
    ensures WireLine(op) != PING_VERB
  {
    var l := WireLine(op);
    assert l[0] == (if op.Put? then 0x53 else 0x44);
    assert PING_VERB[0] == 0x50;
  }

  lemma ClientKeepsInv(w: World, line: Bytes)
    requires Inv(w) && Enabled(w, Client(line))
    ensures Inv(Next(w, Client(line)))
  {
    hide GapFree, WireOk, Caught, NewlineFree, Run, Parse, Emits, ApplyAll, Sound, DistinctKeys, AsContents;
    LineEmits(line, w.leader);
    var leader := Run(Parse(line), w.leader, false, false).cache;
    EmitsParts(w.leader, leader);
    var ops := Emitted(w.leader, leader);
    assert w.sinceCut + [] == w.sinceCut;
    ApplyAllConcat(AsContents(w.snap), w.sinceCut, ops);
    LeaderChangesAlone(w, Next(w, Client(line)));
  }

  /** A step of the leader's clients alone moves nothing on the link. */
  lemma LeaderChangesAlone(w: World, v: World)
    requires w.pairs <= |w.snap| && GapFree(w) && WireOk(w) && Caught(w)
    requires v == w.(leader := v.leader, pending := v.pending)
    ensures GapFree(v) && WireOk(v) && Caught(v)
  {
    hide Split, PairLines, ApplyLines, Unpinged, OpLines;
  }

  lemma EmitsParts(c: L.Cache, d: L.Cache)
    requires Emits(c, d)
    ensures c.outbox <= d.outbox && L.View(d) == ApplyAll(L.View(c), Emitted(c, d)) && Carriable(Emitted(c, d)) && Sound(d)
  {
  }

  lemma HandKeepsGapFree(w: World, v: World, op: Mutation)
    requires GapFree(w) && Progress(w)
    requires v == w.(link := OnEnqueue(w.link, WireLine(op)), sinceCut := w.sinceCut + [op], pending := v.pending)
    ensures GapFree(v) && Progress(v)
  {
    hide Unpinged, OpLines, Held, WireLine;
    OpLinesConcat(w.sinceCut, [op]);
    OneLine(op);
    var ahead := Unpinged(w.tail) + Held(w.phase);
    QueueGrows(ahead, w.link.queue, OpLines(w.sinceCut), [WireLine(op)]);
  }

  lemma OneLine(op: Mutation)
    ensures OpLines([op]) == [WireLine(op)]
  {
    hide WireLine;
  }

  lemma QueueGrows(ahead: seq<Bytes>, queue: seq<Bytes>, all: seq<Bytes>, more: seq<Bytes>)
    ensures ahead + queue == all ==> ahead + (queue + more) == all + more && ahead <= all + more
    ensures ahead <= all ==> ahead <= all + more
  {
    if ahead + queue == all {
      assert ahead + (queue + more) == (ahead + queue) + more;
      assert ahead <= ahead + (queue + more);
    }
  }

  lemma HandKeepsInv(w: World)
    requires Inv(w) && Enabled(w, Hand)
    ensures Inv(Next(w, Hand))
  {
    hide Split, NewlineFree, GapFree, Progress, ApplyLines, PairLines, ApplyAll, Sound, AsContents, DistinctKeys, PrintableItems, Plain;
    PairsBound(w);
    var op := w.pending[0];
    HandKeepsGapFree(w, Next(w, Hand), op);
    assert w.sinceCut + [op] + w.pending[1..] == w.sinceCut + w.pending;
  }

  lemma PairsBound(w: World)
    requires Progress(w)
    ensures w.pairs <= |w.snap|
  {
  }

  lemma AppendLine(b: Bytes, line: Bytes)
    requires Split(b).left == [] && NewlineFree(line)
    ensures Split(b + Terminated(line)) == Framed(Split(b).lines + [line], [])
  {
    hide Split, NewlineFree;
    SplitConcat(b, Terminated(line));
    assert [] + Terminated(line) == Terminated(line) + [];
    SplitOne(line, []);
    SplitUnfinished([]) by { assert NewlineFree([]) by { NoNewlineInNothing(); } }
  }

  lemma NoNewlineInNothing()
    ensures NewlineFree([])
  {
  }

  /** A whole line goes out on a good connection. */
  lemma SendKeepsWire(w: World, v: World, line: Bytes)
    requires w.pairs <= |w.snap| && v.pairs <= |v.snap| && WireOk(w) && Caught(w) && NewlineFree(line)
    requires (Connected(w.phase) || w.phase == Greeted) && Connected(v.phase)
    requires v.inbuf == w.inbuf && v.wire == w.wire + Terminated(line) && v.done == w.done
    requires v.follower == w.follower && v.touched == w.touched && v.base == w.base && Sent(v) == Sent(w) + [line]
    ensures WireOk(v) && Caught(v)
  {
    hide Split, NewlineFree, ApplyLines, Sent;
    AppendLine(w.inbuf + w.wire, line);
    assert v.inbuf + v.wire == w.inbuf + w.wire + Terminated(line);
    assert Sent(v)[w.done..] == Sent(w)[w.done..] + [line];
    assert Sent(v)[..w.done] == Sent(w)[..w.done];
  }

  lemma PairLineIsClean(items: seq<Item>, i: nat)
    requires PrintableItems(items) && i < |items|
    ensures NewlineFree(PairLine(items[i]))
  {
    hide WireLine, Parse, NewlineFree;
    WireRoundTrip(Put(items[i].key, items[i].value));
  }

  lemma SendPairKeepsInv(w: World)
    requires Inv(w) && Enabled(w, SendPair)
    ensures Inv(Next(w, SendPair))
  {
    hide NewlineFree, WireOk, Caught, PairLine, Unpinged, OpLines, Sound, Carriable, ApplyAll;
    var v := Next(w, SendPair);
    PairLineIsClean(w.snap, w.pairs);
    assert w.tail == [];
    assert PairLines(w.snap)[..w.pairs + 1] == PairLines(w.snap)[..w.pairs] + [PairLine(w.snap[w.pairs])];
    assert Sent(v) == Sent(w) + [PairLine(w.snap[w.pairs])];
    SendKeepsWire(w, v, PairLine(w.snap[w.pairs]));
  }

  lemma SentTail(w: World, v: World, line: Bytes)
    requires w.pairs <= |w.snap| && v.snap == w.snap && v.pairs == w.pairs && v.tail == w.tail + [line]
    ensures Sent(v) == Sent(w) + [line]
  {
    hide PairLine;
  }

  /** The held line is one of the leader's mutations. */
  lemma HeldIsClean(w: World)
    requires GapFree(w) && LeaderOk(w) && w.phase.Holding?
    ensures NewlineFree(w.phase.line) && w.phase.line != PING_VERB
  {
    hide Unpinged, NewlineFree, WireLine, Parse, PING_VERB, Printable, Sound, ApplyAll, PrintableItems, DistinctKeys;
    var n := |Unpinged(w.tail)|;
    var ahead := Unpinged(w.tail) + [w.phase.line];
    assert ahead[n] == w.phase.line;
    assert OpLines(w.sinceCut)[n] == w.phase.line;
    var op := w.sinceCut[n];
    assert op in w.sinceCut;
    WireRoundTrip(op);
    WireLineIsNoPing(op);
  }

  /** A live line or a heartbeat leaves the sender in its loop. */
  lemma LineSentKeepsRest(w: World, v: World, line: Bytes)
    requires Progress(w) && GapFree(w) && LeaderOk(w)
    requires Held(w.phase) == if line == PING_VERB then [] else [line]
    requires w.phase == Streaming || w.phase == Holding(line)
    requires v == w.(phase := Streaming, wire := v.wire, tail := w.tail + [line])
    ensures Progress(v) && GapFree(v) && LeaderOk(v)
  {
    hide Unpinged, OpLines, Sound, Carriable, ApplyAll, PrintableItems, PING_VERB;
    UnpingedLast(w.tail, line);
    assert Unpinged(v.tail) + [] == Unpinged(w.tail) + Held(w.phase);
  }

  lemma SendHeldKeepsInv(w: World)
    requires Inv(w) && Enabled(w, SendHeld)
    ensures Inv(Next(w, SendHeld))
  {
    hide NewlineFree, WireOk, Caught, GapFree, LeaderOk, Sent, PING_VERB;
    HeldIsClean(w);
    var v := Next(w, SendHeld);
    SentTail(w, v, w.phase.line);
    LineSentKeepsRest(w, v, w.phase.line);
    SendKeepsWire(w, v, w.phase.line);
  }

  lemma PingIsClean()
    ensures NewlineFree(PING_VERB)
  {
    assert PING_VERB[0] == 0x50 && PING_VERB[1] == 0x49 && PING_VERB[2] == 0x4E && PING_VERB[3] == 0x47;
  }

  lemma PingKeepsInv(w: World)
    requires Inv(w) && Enabled(w, Ping)
    ensures Inv(Next(w, Ping))
  {
    hide NewlineFree, WireOk, Caught, GapFree, LeaderOk, Sent, PING_VERB;
    PingIsClean();
    var v := Next(w, Ping);
    SentTail(w, v, PING_VERB);
    LineSentKeepsRest(w, v, PING_VERB);
    SendKeepsWire(w, v, PING_VERB);
  }

  lemma BreakKeepsInv(w: World, partial: Bytes)
    requires Inv(w) && Enabled(w, Break(partial))
    ensures Inv(Next(w, Break(partial)))
  {
    hide NewlineFree, Split, Unpinged, OpLines, Sound, Carriable, ApplyAll, ApplyLines, PrintableItems, PairLines;
    var v := Next(w, Break(partial));
    SplitConcat(w.inbuf + w.wire, partial);
    SplitUnfinished(partial);
    assert [] + partial == partial;
    assert v.inbuf + v.wire == w.inbuf + w.wire + partial;
  }

  lemma DeliverKeepsInv(w: World, n: nat)
    requires Inv(w) && Enabled(w, Deliver(n))
    ensures Inv(Next(w, Deliver(n)))
  {
    hide NewlineFree, Split, Unpinged, OpLines, Sound, Carriable, ApplyAll, ApplyLines, RunLines, PrintableItems, PairLines, GapFree,
      LeaderOk, Plain, L.View;
    var v := Next(w, Deliver(n));
    var buf, rest := w.inbuf + w.wire[..n], w.wire[n..];
    assert buf + rest == w.inbuf + w.wire;
    SplitConcat(buf, rest);
    SplitLeft(buf);
    var got := Split(buf).lines;
    var sent := Sent(w);
    TakeMore(sent, w.done, got, Split(Split(buf).left + rest).lines);
    ApplyLinesConcat(w.base, sent[..w.done], got);
    RunLinesIsMap(w.follower, got);
    DeliverKeepsRest(w, v);
  }

  lemma TakeMore(sent: seq<Bytes>, done: nat, got: seq<Bytes>, more: seq<Bytes>)
    requires done <= |sent| && sent[done..] == got + more
    ensures done + |got| <= |sent| && sent[..done + |got|] == sent[..done] + got && sent[done + |got|..] == more
  {
    assert sent == sent[..done] + (got + more);
  }

  lemma DeliverKeepsRest(w: World, v: World)
    requires GapFree(w) && LeaderOk(w)
    requires v == w.(wire := v.wire, inbuf := v.inbuf, follower := v.follower, done := v.done)
    ensures GapFree(v) && LeaderOk(v)
  {
    hide Unpinged, OpLines, Sound, Carriable, ApplyAll, PrintableItems;
  }

  lemma {:induction false} ApplyLinesConcat(m: Contents, a: seq<Bytes>, b: seq<Bytes>)
    ensures ApplyLines(m, a + b) == ApplyLines(ApplyLines(m, a), b)
    decreases a
  {
    hide Parse, Effect;
    if a == [] {
      assert a + b == b;
    } else {
      assert (a + b)[1..] == a[1..] + b;
      ApplyLinesConcat(Effect(Parse(a[0]), m), a[1..], b);
    }
  }

  /** The follower's unbounded engine, fed by the leader's link, is a map. */
  lemma {:induction false} RunLinesIsMap(c: L.Cache, lines: seq<Bytes>)
    requires Plain(c)
    ensures Plain(RunLines(c, lines)) && L.View(RunLines(c, lines)) == ApplyLines(L.View(c), lines)
    decreases lines
  {
    hide Plain, L.View, Run, Parse, Effect;
    if lines != [] {
      RunIsMap(Parse(lines[0]), c, true, true);
      RunLinesIsMap(Run(Parse(lines[0]), c, true, true).cache, lines[1..]);
    }
  }

  /** Ordinary clients of the follower do not disturb it, unless they make a handshake. */
  lemma VisitKeepsInv(w: World, line: Bytes)
    requires Inv(w) && Enabled(w, Visit(line))
    ensures Inv(Next(w, Visit(line)))
  {
    hide Run, Parse, Split, ApplyLines, PairLines, NewlineFree, GapFree, LeaderOk, L.View, Plain;
    PlainVisit(Parse(line), w.follower);
    FollowerChangesAlone(w, Next(w, Visit(line)));
  }

  lemma PlainVisit(cmd: Command, c: L.Cache)
    requires Plain(c)
    ensures var x := Run(cmd, c, true, false);
            && Plain(x.cache) && (x.link <==> cmd == SyncCommand)
            && L.View(x.cache) == if cmd == SyncCommand then map[] else L.View(c)
  {
    assert AsContents([]) == map[];
    hide L.Get, L.Set, L.Del, AsContents, DistinctKeys;
    if cmd.GetCommand? {
      L.GetKeepsView(c, cmd.key);
    }
    assert cmd == SyncCommand ==> DistinctKeys([]) by { NoKeys(); }
  }

  lemma NoKeys()
    ensures DistinctKeys([])
  {
  }

  lemma ForeignKeepsInv(w: World, line: Bytes)
    requires Inv(w) && Enabled(w, Foreign(line))
    ensures Inv(Next(w, Foreign(line)))
  {
    hide Run, Parse, Split, ApplyLines, PairLines, NewlineFree, GapFree, LeaderOk, L.View, Plain;
    RunIsMap(Parse(line), w.follower, true, true);
    FollowerChangesAlone(w, Next(w, Foreign(line)));
  }

  lemma FollowerChangesAlone(w: World, v: World)
    requires GapFree(w) && LeaderOk(w)
    requires v == w.(follower := v.follower, foreign := v.foreign, touched := v.touched)
    ensures GapFree(v) && LeaderOk(v)
  {
    hide Unpinged, OpLines, Sound, Carriable, ApplyAll, PrintableItems;
  }

  lemma HandshakeKeepsInv(w: World)
    requires Inv(w) && Enabled(w, Handshake)
    ensures Inv(Next(w, Handshake))
  {
    hide Sound, ApplyAll, Split, WireLine, PING_VERB;
    assert AsContents([]) == map[];
    var v := Next(w, Handshake);
    NoNewlineInNothing();
    SplitUnfinished([]);
    assert v.inbuf + v.wire == [];
    assert Sent(v) == [];
  }

  lemma CutKeepsInv(w: World)
    requires Inv(w) && Enabled(w, Cut)
    ensures Inv(Next(w, Cut))
  {
    hide Split, NewlineFree, PairLine;
    var v := Next(w, Cut);
    assert w.pairs == 0 && Sent(w) == [] && Sent(v) == [];
    assert L.View(v.leader) == AsContents(v.snap);
    assert OpLines(v.sinceCut) == [];
  }

  /** The steps of the sender thread that move nothing over the wire. */
  lemma QuietKeepsInv(w: World, step: Step)
    requires Inv(w) && Enabled(w, step)
    requires step.SnapshotDone? || step.Pop? || step.Resync? || step.CleanUp? || step.Shutdown? || step.Quit?
    ensures Inv(Next(w, step))
  {
    hide WireOk, Caught, NewlineFree, Unpinged, OpLines, Sound, Carriable, ApplyAll, PrintableItems, DistinctKeys, AsContents;
    var v := Next(w, step);
    if step == Pop {
      var a := Unpinged(w.tail);
      assert a + [] + w.link.queue == a + [w.link.queue[0]] + w.link.queue[1..];
    }
    QuietKeepsWire(w, v);
  }

  lemma QuietKeepsWire(w: World, v: World)
    requires w.pairs <= |w.snap| && WireOk(w) && Caught(w)
    requires v == w.(phase := v.phase, link := v.link)
    requires Connected(w.phase) || w.phase == v.phase || !(Connected(v.phase) || v.phase == Greeted)
    ensures WireOk(v) && Caught(v)
  {
    hide Split, PairLines, ApplyLines;
  }

  lemma StepKeepsInv(w: World, step: Step)
    requires Inv(w) && Enabled(w, step)
    ensures Inv(Next(w, step))
  {
    hide Inv, Next;
    match step
    case Client(line) => ClientKeepsInv(w, line);
    case Hand => HandKeepsInv(w);
    case Handshake => HandshakeKeepsInv(w);
    case Cut => CutKeepsInv(w);
    case SendPair => SendPairKeepsInv(w);
    case SnapshotDone => QuietKeepsInv(w, step);
    case Pop => QuietKeepsInv(w, step);
    case SendHeld => SendHeldKeepsInv(w);
    case Ping => PingKeepsInv(w);
    case Resync => QuietKeepsInv(w, step);
    case Break(partial) => BreakKeepsInv(w, partial);
    case CleanUp => QuietKeepsInv(w, step);
    case Shutdown => QuietKeepsInv(w, step);
    case Quit => QuietKeepsInv(w, step);
    case Deliver(n) => DeliverKeepsInv(w, n);
    case Visit(line) => VisitKeepsInv(w, line);
    case Foreign(line) => ForeignKeepsInv(w, line);
  }

  /* ---------------- runs ---------------- */

  predicate IsRun(w: World, steps: seq<Step>)
    decreases steps
  {
    steps == [] || (Enabled(w, steps[0]) && IsRun(Next(w, steps[0]), steps[1..]))
  }

  function After(w: World, steps: seq<Step>): World
    requires IsRun(w, steps)
    decreases steps
  {
    if steps == [] then w else After(Next(w, steps[0]), steps[1..])
  }

  lemma BeginInv(leader: L.Cache, follower: L.Cache)
    requires Sound(leader) && !leader.replaying && Plain(follower)
    ensures Inv(Begin(leader, follower))
  {
    hide Sound, Split, WireLine, PING_VERB;
    var w := Begin(leader, follower);
    NoNewlineInNothing();
    SplitUnfinished([]);
    assert w.inbuf + w.wire == [];
    assert Sent(w) == [];
  }

  /** Once a handshake has been made the follower's contents owe nothing to what it held before. */
  lemma {:induction false} RunKeepsInv(w: World, steps: seq<Step>)
    requires Inv(w) && IsRun(w, steps)
    ensures Inv(After(w, steps))
    ensures w.base == map[] || Handshake in steps ==> After(w, steps).base == map[]
    decreases steps
  {
    hide Inv, Enabled, Next;
    if steps != [] {
      StepKeepsInv(w, steps[0]);
      StepBase(w, steps[0]);
      RunKeepsInv(Next(w, steps[0]), steps[1..]);
      assert steps == [steps[0]] + steps[1..];
    }
  }

  lemma StepBase(w: World, step: Step)
    requires Enabled(w, step)
    ensures Next(w, step).base == if step == Handshake then map[] else w.base
  {
    hide Run, Parse, Split, ApplyLines, RunLines, PairLine, PING_VERB, NewlineFree;
  }

  /* ---------------- what the lines do to the follower ---------------- */

  /** Heartbeats change nothing. */
  lemma {:induction false} PingsDoNothing(m: Contents, lines: seq<Bytes>)
    ensures ApplyLines(m, lines) == ApplyLines(m, Unpinged(lines))
    decreases lines
  {
    hide Parse, PING_VERB;
    if lines != [] {
      PingLine();
      PingsDoNothing(Effect(Parse(lines[0]), m), lines[1..]);
      assert ([lines[0]] + Unpinged(lines[1..]))[1..] == Unpinged(lines[1..]);
      assert [] + Unpinged(lines[1..]) == Unpinged(lines[1..]);
    }
  }

  /** The follower does to its contents what the leader did to its own. */
  lemma {:induction false} OpLinesApply(m: Contents, ops: seq<Mutation>)
    requires Carriable(ops)
    ensures ApplyLines(m, OpLines(ops)) == ApplyAll(m, ops)
    decreases ops
  {
    hide Parse, WireLine, Printable;
    if ops != [] {
      assert ops[0] in ops;
      WireRoundTrip(ops[0]);
      OpLinesApply(Apply(m, ops[0]), ops[1..]);
      assert OpLines(ops)[1..] == OpLines(ops[1..]);
    }
  }

  /** A snapshot's lines, on top of any contents. */
  lemma {:induction false} PairLinesApply(m: Contents, items: seq<Item>)
    requires DistinctKeys(items) && PrintableItems(items)
    ensures ApplyLines(m, PairLines(items)) == m + AsContents(items)
    decreases items
  {
    hide Parse, WireLine, Printable, DistinctKeys;
    if items != [] {
      var k, v := items[0].key, items[0].value;
      WireRoundTrip(Put(k, v));
      HeadFresh(items);
      PairLinesApply(m[k := v], items[1..]);
      assert PairLines(items)[1..] == PairLines(items[1..]);
      assert m[k := v] + AsContents(items[1..]) == m + AsContents(items[1..])[k := v];
    }
  }

  /** A whole snapshot and some live lines, applied to an emptied follower. */
  lemma SnapshotThenOps(snap: seq<Item>, live: seq<Bytes>, ops: seq<Mutation>)
    requires DistinctKeys(snap) && PrintableItems(snap) && Carriable(ops) && Unpinged(live) == OpLines(ops)
    ensures ApplyLines(map[], PairLines(snap) + live) == ApplyAll(AsContents(snap), ops)
  {
    hide ApplyLines, PairLines, OpLines, Unpinged, DistinctKeys, PrintableItems, Carriable, ApplyAll;
    var c := AsContents(snap);
    assert map[] + c == c;
    ApplyLinesConcat(map[], PairLines(snap), live);
    PairLinesApply(map[], snap);
    PingsDoNothing(c, live);
    OpLinesApply(c, ops);
  }

  /** All lines the follower has still to execute, in order: those in flight, the snapshot
      lines not yet sent, the line held by the sender, the backlog, and what the request under
      way on the leader has still to hand over. */
  function Outstanding(w: World): seq<Bytes>
    requires w.pairs <= |w.snap| && w.done <= |Sent(w)|
  {
    Sent(w)[w.done..] + (PairLines(w.snap)[w.pairs..] + (Held(w.phase) + (w.link.queue + OpLines(w.pending))))
  }

  lemma Regroup(sent: seq<Bytes>, tail: seq<Bytes>, left: seq<Bytes>, rest: seq<Bytes>)
    requires tail == [] || left == []
    ensures (sent + tail) + (left + rest) == (sent + left) + (tail + rest)
  {
    if tail == [] {
      assert sent + tail == sent && tail + rest == rest;
    } else {
      assert sent + left == sent && left + rest == rest;
    }
  }

  lemma AllLines(w: World)
    requires Progress(w) && w.done <= |Sent(w)|
    ensures Sent(w)[..w.done] + Outstanding(w) == PairLines(w.snap) + (w.tail + (Held(w.phase) + (w.link.queue + OpLines(w.pending))))
  {
    var all := PairLines(w.snap);
    assert w.tail == [] || all[w.pairs..] == [];
    hide PairLines, Progress, OpLines;
    var rest := Held(w.phase) + (w.link.queue + OpLines(w.pending));
    Regroup(all[..w.pairs], w.tail, all[w.pairs..], rest);
    assert all[..w.pairs] + all[w.pairs..] == all;
    Whole(Sent(w), w.done, all[w.pairs..] + rest);
  }

  lemma Whole(s: seq<Bytes>, n: nat, more: seq<Bytes>)
    requires n <= |s|
    ensures s[..n] + (s[n..] + more) == s + more
  {
  }

  lemma {:induction false} NothingToUnping(lines: seq<Bytes>)
    requires PING_VERB !in lines
    ensures Unpinged(lines) == lines
  {
    hide PING_VERB;
    if lines != [] {
      NothingToUnping(lines[1..]);
    }
  }

  lemma OpsAreNoPings(ops: seq<Mutation>)
    ensures PING_VERB !in OpLines(ops)
  {
    hide PING_VERB, WireLine;
    forall i | 0 <= i < |ops|
      ensures OpLines(ops)[i] != PING_VERB
    {
      WireLineIsNoPing(ops[i]);
    }
  }

  lemma StreamedLines(w: World)
    requires GapFree(w) && Connected(w.phase) && w.link.streaming
    ensures Unpinged(w.tail + (Held(w.phase) + (w.link.queue + OpLines(w.pending)))) == OpLines(w.sinceCut + w.pending)
  {
    hide Unpinged, OpLines, PING_VERB;
    var more := OpLines(w.pending);
    var rest := Held(w.phase) + (w.link.queue + more);
    OpLinesConcat(w.sinceCut, w.pending);
    OpsAreNoPings(w.sinceCut + w.pending);
    Reassociate(Unpinged(w.tail), Held(w.phase), w.link.queue, more);
    InSuffix(Unpinged(w.tail), rest, PING_VERB);
    NothingToUnping(rest);
    UnpingedConcat(w.tail, rest);
  }

  lemma Reassociate(a: seq<Bytes>, b: seq<Bytes>, c: seq<Bytes>, d: seq<Bytes>)
    ensures a + (b + (c + d)) == (a + b + c) + d
  {
  }

  lemma InSuffix(a: seq<Bytes>, b: seq<Bytes>, x: Bytes)
    requires x !in a + b
    ensures x !in b
  {
  }

  lemma CarriableBoth(a: seq<Mutation>, b: seq<Mutation>)
    requires Carriable(a) && Carriable(b)
    ensures Carriable(a + b)
  {
  }

  /** Convergence: while a link streams, executing the lines that the follower has still to
      execute makes its contents those of the leader. */
  lemma Convergence(w: World)
    requires Inv(w) && Connected(w.phase) && w.link.streaming && !w.touched
    ensures L.View(RunLines(w.follower, Outstanding(w))) == L.View(w.leader)
  {
    hide GapFree, WireOk, NewlineFree, ApplyLines, RunLines, ApplyAll, Sound, Carriable, PrintableItems, DistinctKeys, Sent, PairLines,
      AsContents, L.View, Outstanding, Plain, OpLines;
    var live := w.tail + (Held(w.phase) + (w.link.queue + OpLines(w.pending)));
    StreamedLines(w);
    AllLines(w);
    CarriableBoth(w.sinceCut, w.pending);
    SnapshotThenOps(w.snap, live, w.sinceCut + w.pending);
    ApplyLinesConcat(map[], Sent(w)[..w.done], Outstanding(w));
    RunLinesIsMap(w.follower, Outstanding(w));
  }

  predicate Drained(w: World) {
    w.phase == Streaming && w.link.streaming && w.link.queue == [] && w.wire == [] && w.pending == []
  }

  /** A drained link means equal contents. */
  lemma DrainedIsEqual(w: World)
    requires Inv(w) && Drained(w) && !w.touched
    ensures L.View(w.follower) == L.View(w.leader)
  {
    hide GapFree, NewlineFree, Split, ApplyAll, LeaderOk, PairLine;
    Convergence(w);
    assert w.inbuf + w.wire == w.inbuf;
    SplitUnfinished(w.inbuf);
    assert Outstanding(w) == [];
  }

  lemma {:induction false} UnpingedPrefix(lines: seq<Bytes>, n: nat)
    requires n <= |lines|
    ensures Unpinged(lines[..n]) <= Unpinged(lines)
  {
    hide Unpinged;
    UnpingedConcat(lines[..n], lines[n..]);
    assert lines[..n] + lines[n..] == lines;
  }

  /** How many of the leader's mutations since the cut the follower has executed. */
  function Followed(w: World): nat
    requires w.pairs <= w.done <= w.pairs + |w.tail|
  {
    |Unpinged(w.tail[..w.done - w.pairs])|
  }

  /** Gap-free streaming: the live lines sent are, heartbeats aside, a prefix of the leader's
      mutations since the cut, whatever overflowed or broke. */
  lemma NoGap(w: World)
    requires Inv(w)
    ensures Unpinged(w.tail) <= OpLines(w.sinceCut)
  {
    hide WireOk, Caught, Progress, LeaderOk, Unpinged, OpLines, NewlineFree;
    var t := Unpinged(w.tail);
    assert t <= t + Held(w.phase);
    assert t + Held(w.phase) <= t + Held(w.phase) + w.link.queue;
  }

  lemma SentPairs(w: World)
    requires w.done <= w.pairs <= |w.snap|
    ensures Sent(w)[..w.done] == PairLines(w.snap[..w.done])
  {
    hide PairLine;
  }

  lemma SomeOfTheSnapshot(w: World)
    requires Inv(w) && !w.touched && w.base == map[] && w.done <= w.pairs
    ensures L.View(w.follower) == AsContents(w.snap[..w.done])
  {
    hide GapFree, WireOk, NewlineFree, ApplyLines, Sound, Carriable, Sent, PairLines, AsContents, ApplyAll;
    SentPairs(w);
    var part := w.snap[..w.done];
    assert DistinctKeys(part) && PrintableItems(part);
    PairLinesApply(map[], part);
    assert map[] + AsContents(part) == AsContents(part);
  }

  lemma SentLive(w: World)
    requires w.pairs == |w.snap| && w.pairs <= w.done <= |Sent(w)|
    ensures w.done - w.pairs <= |w.tail| && Sent(w)[..w.done] == PairLines(w.snap) + w.tail[..w.done - w.pairs]
  {
    hide PairLine;
    assert PairLines(w.snap)[..w.pairs] == PairLines(w.snap);
  }

  lemma OpLinesPrefix(ops: seq<Mutation>, lines: seq<Bytes>)
    requires lines <= OpLines(ops)
    ensures |lines| <= |ops| && lines == OpLines(ops[..|lines|])
  {
    hide WireLine;
  }

  lemma SnapshotAndAPrefix(w: World)
    requires Inv(w) && !w.touched && w.base == map[] && w.pairs == |w.snap| <= w.done
    ensures w.done - w.pairs <= |w.tail| && Followed(w) <= |w.sinceCut|
    ensures L.View(w.follower) == ApplyAll(AsContents(w.snap), w.sinceCut[..Followed(w)])
  {
    hide GapFree, NewlineFree, Split, ApplyLines, Sound, PrintableItems, DistinctKeys, Sent, PairLines, AsContents, ApplyAll,
      Unpinged, OpLines;
    SentLive(w);
    NoGap(w);
    var part := w.tail[..w.done - w.pairs];
    UnpingedPrefix(w.tail, w.done - w.pairs);
    OpLinesPrefix(w.sinceCut, Unpinged(part));
    SnapshotThenOps(w.snap, part, w.sinceCut[..Followed(w)]);
  }

  /** Prefix consistency: at every moment, connected or not, the follower holds part of the last
      snapshot, or all of it and a prefix of the leader's mutations since. */
  lemma PrefixConsistency(w: World)
    requires Inv(w) && !w.touched && w.base == map[]
    ensures w.done < |w.snap| ==> L.View(w.follower) == AsContents(w.snap[..w.done])
    ensures w.done >= |w.snap| ==>
              w.pairs <= w.done <= w.pairs + |w.tail| && Followed(w) <= |w.sinceCut| &&
              L.View(w.follower) == ApplyAll(AsContents(w.snap), w.sinceCut[..Followed(w)])
  {
    hide GapFree, LeaderOk, NewlineFree, Split, ApplyLines, PairLine, AsContents, ApplyAll, Followed;
    PairsBound(w);
    assert w.done <= |Sent(w)|;
    if w.done < |w.snap| {
      SomeOfTheSnapshot(w);
    } else {
      SnapshotAndAPrefix(w);
    }
  }

  /* ---------------- the promises, over every run ---------------- */

  /** In every run, from any contents on either side: while a link streams, the lines still on
      their way make the follower equal to the leader; once it is drained they are equal. */
  lemma EveryRunConverges(leader: L.Cache, follower: L.Cache, steps: seq<Step>)
    requires Sound(leader) && !leader.replaying && Plain(follower) && IsRun(Begin(leader, follower), steps)
    ensures var w := After(Begin(leader, follower), steps);
            && Inv(w)
            && (Connected(w.phase) && w.link.streaming && !w.touched ==> L.View(RunLines(w.follower, Outstanding(w))) == L.View(w.leader))
            && (Drained(w) && !w.touched ==> L.View(w.follower) == L.View(w.leader))
  {
    hide Inv, IsRun, After, ApplyLines, Sound, Outstanding;
    BeginInv(leader, follower);
    RunKeepsInv(Begin(leader, follower), steps);
    var w := After(Begin(leader, follower), steps);
    if Connected(w.phase) && w.link.streaming && !w.touched {
      Convergence(w);
    }
    if Drained(w) && !w.touched {
      DrainedIsEqual(w);
    }
  }

  /** In every run that has made a handshake, the follower is never anything but a prefix of
      the last connection's snapshot and mutations. */
  lemma EveryRunIsPrefixConsistent(leader: L.Cache, follower: L.Cache, steps: seq<Step>)
    requires Sound(leader) && !leader.replaying && Plain(follower) && IsRun(Begin(leader, follower), steps) && Handshake in steps
    ensures var w := After(Begin(leader, follower), steps);
            && Unpinged(w.tail) <= OpLines(w.sinceCut)
            && (w.touched ||
               if w.done < |w.snap| then L.View(w.follower) == AsContents(w.snap[..w.done])
               else w.pairs <= w.done <= w.pairs + |w.tail| && Followed(w) <= |w.sinceCut| &&
                    L.View(w.follower) == ApplyAll(AsContents(w.snap), w.sinceCut[..Followed(w)]))
  {
    hide Inv, IsRun, After, Sound, AsContents, ApplyAll, Followed, Unpinged, OpLines;
    BeginInv(leader, follower);
    RunKeepsInv(Begin(leader, follower), steps);
    var w := After(Begin(leader, follower), steps);
    NoGap(w);
    if !w.touched {
      PrefixConsistency(w);
    }
  }

  /** Nobody but the leader makes a handshake, or writes behind one. */
  predicate Undisturbed(steps: seq<Step>) {
    forall s :: s in steps ==> !s.Foreign? && (s.Visit? ==> Parse(s.line) != SyncCommand)
  }

  /** Then the follower stays the leader's alone, and the promises above hold throughout. */
  lemma {:induction false} UndisturbedRun(w: World, steps: seq<Step>)
    requires IsRun(w, steps) && Undisturbed(steps) && !w.touched
    ensures !After(w, steps).touched
    decreases steps
  {
    hide Enabled, Next, Parse;
    if steps != [] {
      UndisturbedStep(w, steps[0]);
      UndisturbedRun(Next(w, steps[0]), steps[1..]);
    }
  }

  lemma UndisturbedStep(w: World, step: Step)
    requires Enabled(w, step) && Undisturbed([step]) && !w.touched
    ensures !Next(w, step).touched
  {
    assert step in [step];
    if step.Visit? {
      hide Parse;
      NoLink(Parse(step.line), w.follower);
    } else {
      hide Parse, Run, Split, RunLines, PairLine, PING_VERB, NewlineFree;
    }
  }

  lemma NoLink(cmd: Command, c: L.Cache)
    requires cmd != SyncCommand
    ensures !Run(cmd, c, true, false).link
  {
    hide L.Get, L.Set, L.Del;
  }

  /** What a handshake by anybody else does to a follower that is level with its leader: they
      stay level if and only if the leader holds nothing. */
  lemma ForeignHandshakeEmpties(w: World, line: Bytes)
    requires Inv(w) && Drained(w) && !w.touched && Enabled(w, Visit(line)) && Parse(line) == SyncCommand
    ensures var v := Next(w, Visit(line));
            && Drained(v) && L.View(v.follower) == map[]
            && (L.View(v.follower) == L.View(v.leader) <==> L.View(v.leader) == map[])
  {
    hide Parse, LeaderOk, WireOk, GapFree, Progress, NewlineFree, L.View, Run;
    PlainVisit(Parse(line), w.follower);
  }

  /** Without a stream there is no backlog, and a link that has overflowed is on its way to a fresh
      sync: a connection that is still good has a resync pending, and once in its loop the sender
      can do nothing but leave it. */
  lemma OverflowResyncs(w: World)
    requires Inv(w) && !w.link.streaming
    ensures w.link.queue == [] && (Connected(w.phase) ==> w.link.resync)
    ensures w.phase == Streaming ==>
              && Enabled(w, Resync) && !Enabled(w, Pop) && !Enabled(w, Ping)
              && Next(w, Resync).phase == Failing && !Next(w, Resync).link.resync
  {
    hide LeaderOk, GapFree, WireOk, Caught, NewlineFree;
  }

  /** How long a follower may lag: a streaming link is dropped by the line that finds 100,000
      others waiting, and by no other. */
  lemma BacklogBound(l: Link, line: Bytes)
    requires l.streaming
    ensures OnEnqueue(l, line).streaming <==> |l.queue| < 100_000
    ensures |l.queue| < 100_000 ==> OnEnqueue(l, line).queue == l.queue + [line] && OnEnqueue(l, line).resync == l.resync
    ensures |l.queue| >= 100_000 ==> OnEnqueue(l, line).resync && OnEnqueue(l, line).queue == []
  {
  }

  /* ---------------- shutting down ---------------- */

  /** What a sender that has been asked to stop does next, with a connection that does not fail. */
  function WindUp(w: World): Step {
    match w.phase
    case Offline => Quit
    case Greeted => if w.pending != [] then Hand else Cut
    case Snapshotting => if w.pairs < |w.snap| then SendPair else SnapshotDone
    case Streaming => Resync
    case Holding(_) => SendHeld
    case _ => CleanUp
  }

  function LeftToSend(w: World): nat {
    if w.pairs < |w.snap| then |w.snap| - w.pairs else 0
  }

  function PhaseRank(p: Phase): nat {
    match p
    case Greeted => 6
    case Snapshotting => 5
    case Holding(_) => 4
    case Streaming => 3
    case Failing => 2
    case Offline => 1
    case Ended => 0
  }

  lemma WindUpStep(w: World)
    requires Inv(w) && w.link.stop && w.phase != Ended
    ensures Enabled(w, WindUp(w))
    ensures var v := Next(w, WindUp(w));
            && Inv(v) && v.link.stop
            && (PhaseRank(v.phase) < PhaseRank(w.phase) ||
                (v.phase == w.phase && (if w.phase == Greeted then |v.pending| < |w.pending| else LeftToSend(v) < LeftToSend(w))))
  {
    hide LeaderOk, GapFree, WireOk, Caught, NewlineFree, WireLine, PairLine;
    assert Enabled(w, WindUp(w));
    StepKeepsInv(w, WindUp(w));
  }

  function Effort(w: World): nat {
    if w.phase == Greeted then |w.pending| else LeftToSend(w)
  }

  /** A stop is always obeyed: from every reachable state the sender's own steps end its thread,
      without the connection having to fail. */
  lemma {:induction false} CanStop(w: World) returns (steps: seq<Step>)
    requires Inv(w) && w.link.stop
    ensures IsRun(w, steps) && After(w, steps).phase == Ended
    ensures forall s :: s in steps ==> !s.Client? && !s.Break? && !s.Visit? && !s.Foreign? && !s.Handshake?
    decreases PhaseRank(w.phase), Effort(w)
  {
    hide Inv, Enabled, Next, LeftToSend;
    if w.phase == Ended {
      steps := [];
    } else {
      WindUpStep(w);
      var step := WindUp(w);
      var rest := CanStop(Next(w, step));
      steps := [step] + rest;
      assert steps[1..] == rest;
    }
  }

  /** What brings the follower up to date from here: let the request under way finish, reconnect
      if need be, send what is left, deliver it. */
  function CatchUp(w: World): Step {
    if w.pending != [] then Hand
    else match w.phase
    case Offline => Handshake
    case Greeted => if w.touched then Break([]) else Cut
    case Snapshotting =>
      if Spoilt(w) then Break([]) else if w.pairs < |w.snap| then SendPair else SnapshotDone
    case Streaming =>
      if !w.link.streaming then Resync else if w.touched then Break([]) else if w.link.queue != [] then Pop else Deliver(|w.wire|)
    case Holding(_) => if Spoilt(w) then Break([]) else SendHeld
    case _ => CleanUp
  }

  /** A connection that cannot lead to equal contents any more. */
  predicate Spoilt(w: World) {
    !w.link.streaming || w.touched
  }

  function Stage(w: World): nat {
    match w.phase
    case Offline => 2
    case Greeted => if w.touched then 4 else 1
    case Snapshotting => if Spoilt(w) then 4 else 0
    case Streaming => if Spoilt(w) then 4 else 0
    case Holding(_) => if Spoilt(w) then 4 else 0
    case _ => 3
  }

  function Work(w: World): nat {
    (if w.pairs < |w.snap| then |w.snap| - w.pairs else 0) + 2 * |w.link.queue| +
    (if w.phase.Snapshotting? || w.phase.Holding? then 1 else 0)
  }

  lemma CatchUpEnabled(w: World)
    requires Progress(w) && !w.link.stop
    ensures Enabled(w, CatchUp(w))
  {
    NoNewlineInNothing();
    hide NewlineFree, Parse;
  }

  /** A step of catching up comes nearer to a drained link, or reaches it. */
  predicate Nearer(w: World, step: Step, v: World) {
    && v.leader == w.leader && !v.link.stop
    && (if step.Deliver? then Drained(v) && !v.touched
        else if step.Hand? then |v.pending| < |w.pending|
        else v.pending == w.pending && (Stage(v) < Stage(w) || (Stage(v) == Stage(w) && Work(v) < Work(w))))
  }

  lemma CatchUpMoves(w: World)
    requires Progress(w) && !w.link.stop && Enabled(w, CatchUp(w))
    ensures Nearer(w, CatchUp(w), Next(w, CatchUp(w)))
  {
    hide NewlineFree, Progress;
    if w.pending != [] {
      HandMoves(w);
    } else if Connected(w.phase) && !Spoilt(w) {
      SendingMoves(w);
    } else {
      ReconnectingMoves(w);
    }
  }

  lemma HandMoves(w: World)
    requires !w.link.stop && w.pending != []
    ensures Enabled(w, Hand) && Nearer(w, Hand, Next(w, Hand))
  {
    hide WireLine;
  }

  lemma SendingMoves(w: World)
    requires Progress(w) && !w.link.stop && w.pending == [] && Connected(w.phase) && !Spoilt(w) && Enabled(w, CatchUp(w))
    ensures Nearer(w, CatchUp(w), Next(w, CatchUp(w)))
  {
    hide NewlineFree, Split, RunLines, PairLine;
  }

  lemma ReconnectingMoves(w: World)
    requires !w.link.stop && w.pending == [] && (!Connected(w.phase) || Spoilt(w)) && Enabled(w, CatchUp(w))
    ensures Nearer(w, CatchUp(w), Next(w, CatchUp(w)))
  {
    hide NewlineFree, Run;
  }

  lemma CatchUpIsOurs(w: World)
    ensures var step := CatchUp(w); !step.Client? && !step.Visit? && !step.Foreign?
  {
  }

  lemma CatchUpStep(w: World)
    requires Inv(w) && !w.link.stop
    ensures Enabled(w, CatchUp(w))
    ensures var step, v := CatchUp(w), Next(w, CatchUp(w));
            && !step.Client? && !step.Visit? && !step.Foreign?
            && Inv(v) && Nearer(w, step, v)
  {
    assert Progress(w);
    hide Inv, Next, Enabled, CatchUp, Nearer, Progress;
    CatchUpEnabled(w);
    CatchUpMoves(w);
    CatchUpIsOurs(w);
    StepKeepsInv(w, CatchUp(w));
  }

  /** From every reachable state of a replicator that is not shutting down, without another
      client request, the sender and the follower can bring the follower level with the leader. */
  lemma {:induction false} CanCatchUp(w: World) returns (steps: seq<Step>)
    requires Inv(w) && !w.link.stop
    ensures IsRun(w, steps) && After(w, steps).leader == w.leader && Drained(After(w, steps))
    ensures L.View(After(w, steps).follower) == L.View(w.leader)
    ensures forall s :: s in steps ==> !s.Client? && !s.Visit? && !s.Foreign?
    decreases |w.pending|, Stage(w), Work(w)
  {
    hide Inv, Enabled, Next, Stage, Work, CatchUp, Drained, L.View;
    CatchUpStep(w);
    var step := CatchUp(w);
    var v := Next(w, step);
    if step.Deliver? {
      steps := [step];
      assert [step][1..] == [];
      DrainedIsEqual(v);
    } else {
      var rest := CanCatchUp(v);
      steps := [step] + rest;
      assert steps[1..] == rest;
    }
  }
}
