/** The sharding router in front of a set of shards. */
module Router {
  import opened ByteStrings
  import opened KeyValue
  import opened Command
  import opened Execution
  import opened Framing
  import opened WriteAheadLog

  /** The start value and multiplier as the source has them, in wrapping 64-bit arithmetic. */
  const HASH_SEED: bv64 := 1469598103934665603
  const HASH_PRIME: bv64 := 1099511628211

  function MixWord(h: bv64, w: bv64): bv64 {
    (h ^ w) * HASH_PRIME
  }

  function Mix(h: bv64, c: byte): bv64 {
    MixWord(h, c as bv64)
  }

  function Hash(s: Bytes): bv64 {
    if s == [] then HASH_SEED else Mix(Hash(s[..|s| - 1]), s[|s| - 1])
  }

  method ComputeHash(s: Bytes) returns (h: bv64)
    ensures h == Hash(s)
  {
    hide Mix;
    h := HASH_SEED;
    for i := 0 to |s|
      invariant h == Hash(s[..i])
    {
      assert s[..i + 1][..i] == s[..i];
      h := Mix(h, s[i]);
    }
    assert s[..|s|] == s;
  }

  function Number(h: bv64): (n: int)
    ensures 0 <= n < 0x1_0000_0000_0000_0000
  {
    h as int
  }

  function ShardFor(key: Bytes, shards: nat): (i: nat)
    ensures shards > 0 ==> i < shards
  {
    if shards == 0 then 0 else Number(Hash(key)) % shards
  }

  const INFO_VERB: Bytes := Text("INFO")

  const MAX_LINE: nat := 65536
  const MAX_REPLY: nat := 131072

  /** What reaches the router of a shard's reply line: everything up to the newline, without a
      carriage return at its end; nothing if the line is too long. */
  function Received(stream: Bytes): Option<Bytes> {
    var e := LineEnd(stream);
    if e == |stream| || e > MAX_REPLY then None
    else if e > 0 && stream[e - 1] == RETURN then Some(stream[..e - 1])
    else Some(stream[..e])
  }

  /** A shard, as an ordinary node: reply line and new state. */
  function ShardReply(c: L.Cache, line: Bytes): Bytes {
    Render(Run(Parse(line), c, false, false).reply)
  }

  function ShardAfter(c: L.Cache, line: Bytes): L.Cache {
    Run(Parse(line), c, false, false).cache
  }

  /** The same on the abstract store. */
  function MapReply(m: Contents, line: Bytes): Bytes {
    Render(Answer(Parse(line), m))
  }

  function MapAfter(m: Contents, line: Bytes): Contents {
    Effect(Parse(line), m)
  }

  lemma ShardIsMap(c: L.Cache, line: Bytes)
    requires Plain(c)
    ensures ShardReply(c, line) == MapReply(L.View(c), line)
    ensures Plain(ShardAfter(c, line)) && L.View(ShardAfter(c, line)) == MapAfter(L.View(c), line)
  {
    hide Parse, Run, Render, Plain, L.View, Answer, Effect;
    RunIsMap(Parse(line), c, false, false);
  }

  datatype Outcome = Outcome(reply: Bytes, close: bool, shards: seq<L.Cache>)

  /** Answer keyless commands at the router, forward everything else to the shard of its key. */
  function RouteLine(shards: seq<L.Cache>, line: Bytes): Outcome
    requires shards != []
  {
    var w := RouterWords(line);
    if w.verb == [] then Outcome([], false, shards)
    else if w.verb == QUIT_VERB || w.verb == EXIT_VERB then Outcome(Text("OK"), true, shards)
    else if w.verb == PING_VERB then Outcome(Text("PONG"), false, shards)
    else if w.key == [] then
      Outcome(Text("ERR ROUTER: '") + (w.verb + Text("' needs a key to route on")), false, shards)
    else
      hide Hash;
      var i := ShardFor(w.key, |shards|);
      var reply := Received(Terminated(ShardReply(shards[i], line)));
      Outcome(if reply.Some? then reply.value else Text("ERR ROUTER: shard request failed"), false,
              shards[i := ShardAfter(shards[i], line)])
  }

  /* ---------------- what a line is about ---------------- */

  /** The lines that the router hands to a shard, within the length cap. */
  predicate Routable(line: Bytes) {
    var w := RouterWords(line);
    && w.key != []
    && w.verb != QUIT_VERB && w.verb != EXIT_VERB && w.verb != PING_VERB && w.verb != INFO_VERB
    && NewlineFree(line) && |line| <= MAX_LINE
  }

  predicate Keyed(cmd: Command) {
    cmd.SetCommand? || cmd.GetCommand? || cmd.DelCommand? || cmd.ExistsCommand?
  }

  function KeyOf(cmd: Command): Bytes
    requires Keyed(cmd)
  {
    match cmd
    case SetCommand(k, _) => k
    case GetCommand(k) => k
    case DelCommand(k) => k
    case ExistsCommand(k) => k
    case _ => []
  }

  /** The key a command works on is the key the router hashed. */
  lemma CommandKeyIsRouted(line: Bytes)
    requires Keyed(Parse(line))
    ensures KeyOf(Parse(line)) == RouterWords(line).key
  {
    hide SYNC_VERB, VOTE_VERB, APPEND_VERB, ROLE_VERB, SET_VERB, GET_VERB, DEL_VERB, DELETE_VERB,
         EXISTS_VERB, PING_VERB, QUIT_VERB, EXIT_VERB, Trimmed, Cut, RouterWords, Upper;
    TokenizersAgree(line);
  }

  lemma KeyImpliesVerb(line: Bytes)
    requires RouterWords(line).key != []
    ensures RouterWords(line).verb != []
  {
    var b := Begin(line);
    assert b < |line| ==> !IsSpace(line[b]);
    if b < |line| {
      assert Span(Token, line, b) > b;
    }
  }

  lemma AnswerIsLocal(cmd: Command, m: Contents, m': Contents, key: Bytes)
    requires Keyed(cmd) ==> KeyOf(cmd) == key
    requires Find(m, key) == Find(m', key)
    ensures Answer(cmd, m) == Answer(cmd, m')
  {
  }

  lemma EffectIsLocal(cmd: Command, m: Contents, m': Contents, key: Bytes, k: Bytes)
    requires Keyed(cmd) ==> KeyOf(cmd) == key
    ensures k != key ==> Find(Effect(cmd, m), k) == Find(m, k)
    ensures Find(m, key) == Find(m', key) ==> Find(Effect(cmd, m), key) == Find(Effect(cmd, m'), key)
  {
  }

  /* ---------------- replies survive the trip back ---------------- */

  predicate Deliverable(b: Bytes) {
    NewlineFree(b) && (b != [] ==> b[|b| - 1] != RETURN) && |b| <= MAX_REPLY
  }

  lemma DeliverableIsReceived(b: Bytes)
    requires Deliverable(b)
    ensures Received(Terminated(b)) == Some(b)
  {
    var s := Terminated(b);
    assert forall i :: 0 <= i < |b| ==> s[i] == b[i];
    LineEndUnique(s, |b|);
    assert s[..|b|] == b;
  }

  /** A reply line of up to 131,072 bytes arrives, without the carriage return at its end if it has
      one; a longer line, or one that is cut off before its newline, does not. */
  lemma ReplyArrives(b: Bytes)
    requires NewlineFree(b)
    ensures Received(b).None?
    ensures Received(Terminated(b)) ==
              if |b| > 131072 then None
              else if b != [] && b[|b| - 1] == 0x0D then Some(b[..|b| - 1])
              else Some(b)
  {
    var s := Terminated(b);
    assert forall i :: 0 <= i < |b| ==> s[i] == b[i];
    LineEndUnique(s, |b|);
    LineEndUnique(b, |b|);
    assert s[..|b|] == b;
    assert b != [] ==> s[..|b| - 1] == b[..|b| - 1];
  }

  predicate Ascii(s: string) {
    forall i :: 0 <= i < |s| ==> ' ' <= s[i] <= '~'
  }

  lemma AsciiText(s: string)
    requires Ascii(s)
    ensures NewlineFree(Text(s)) && RETURN !in Text(s)
  {
  }

  lemma DeliverableConcat(a: Bytes, b: Bytes)
    requires NewlineFree(a) && NewlineFree(b) && b != [] && b[|b| - 1] != RETURN && |a| + |b| <= MAX_REPLY
    ensures Deliverable(a + b)
  {
  }

  lemma FixedRepliesAreAscii()
    ensures Ascii("OK") && Ascii("(nil)") && Ascii("(integer) ") && Ascii("PONG")
    ensures Ascii("ERR wrong number of arguments for '") && Ascii("' command") && Ascii("'")
    ensures Ascii("ERR unknown command '")
  {
  }

  lemma LongRepliesAreAscii()
    ensures Ascii("ERR __REPLSYNC__ is only ") && Ascii("valid on a read-only replica")
    ensures Ascii("ERR this node is ") && Ascii("not part of a Raft cluster")
    ensures Ascii("standalone (not a Raft cluster)")
  {
    hide Ascii;
    SyncReplyIsAscii();
    StandaloneReplyIsAscii();
    RaftReplyIsAscii();
  }

  lemma SyncReplyIsAscii()
    ensures Ascii("ERR __REPLSYNC__ is only ") && Ascii("valid on a read-only replica")
  {
  }

  lemma RaftReplyIsAscii()
    ensures Ascii("ERR this node is ") && Ascii("not part of a Raft cluster")
  {
  }

  lemma StandaloneReplyIsAscii()
    ensures Ascii("standalone (not a Raft cluster)")
  {
  }

  lemma NamesAreAscii(n: Name)
    ensures Ascii(NameText(n)) && |NameText(n)| <= 6
  {
  }

  predicate StoredOk(m: Contents) {
    forall k :: k in m ==> Tight(m[k]) && |m[k]| <= MAX_LINE
  }

  lemma PlainTextIsDeliverable(s: string)
    requires Ascii(s) && |s| <= 1000
    ensures Deliverable(Text(s))
  {
    AsciiText(s);
    var t := Text(s);
    assert t != [] ==> t[|t| - 1] in t;
  }

  lemma IntegerIsDeliverable(n: nat)
    requires n <= 1
    ensures Deliverable(Render(Integer(n)))
  {
    hide Text;
    FixedRepliesAreAscii();
    AsciiText("(integer) ");
    var d := Numeral(n);
    assert |d| == 1 && IsDigit(d[0]);
    DeliverableConcat(Text("(integer) "), d);
  }

  lemma WrongArgumentsIsDeliverable(n: Name)
    ensures Deliverable(Render(WrongArguments(n)))
  {
    hide Text;
    FixedRepliesAreAscii();
    NamesAreAscii(n);
    var a, b, c := Text("ERR wrong number of arguments for '"), Text(NameText(n)), Text("' command");
    AsciiText("ERR wrong number of arguments for '");
    AsciiText(NameText(n));
    AsciiText("' command");
    assert c[|c| - 1] in c;
    DeliverableConcat(b, c);
    DeliverableConcat(a, b + c);
  }

  lemma UnknownIsDeliverable(verb: Bytes)
    requires NewlineFree(verb) && |verb| <= MAX_LINE
    ensures Deliverable(Render(UnknownVerb(verb)))
  {
    hide Text;
    FixedRepliesAreAscii();
    var a, c := Text("ERR unknown command '"), Text("'");
    AsciiText("ERR unknown command '");
    AsciiText("'");
    assert c[|c| - 1] in c;
    DeliverableConcat(verb, c);
    DeliverableConcat(a, verb + c);
  }

  /** A verb comes from a word of the line, so it fits and has no newline in it. */
  lemma VerbShape(line: Bytes)
    requires NewlineFree(line)
    ensures var v := RouterWords(line).verb; NewlineFree(v) && |v| <= |line|
  {
    var b := Begin(line);
    var w := line[b..Span(Token, line, b)];
    var u := Upper(w);
    assert forall i :: 0 <= i < |w| ==> w[i] == line[b + i];
    assert forall i :: 0 <= i < |u| ==> u[i] == UpperByte(w[i]);
  }

  lemma UnknownVerbIsRouted(line: Bytes)
    requires Parse(line).Unknown?
    ensures Parse(line).verb == RouterWords(line).verb
  {
    hide SYNC_VERB, VOTE_VERB, APPEND_VERB, ROLE_VERB, SET_VERB, GET_VERB, DEL_VERB, DELETE_VERB,
         EXISTS_VERB, PING_VERB, QUIT_VERB, EXIT_VERB, Trimmed, Cut, RouterWords, Upper;
    TokenizersAgree(line);
  }

  lemma ReplyIsDeliverable(m: Contents, line: Bytes)
    requires StoredOk(m) && NewlineFree(line) && |line| <= MAX_LINE
    ensures Deliverable(MapReply(m, line))
  {
    hide Text, Parse, Deliverable, NewlineFree;
    VerbShape(line);
    var cmd := Parse(line);
    FixedRepliesAreAscii();
    LongRepliesAreAscii();
    if cmd.Unknown? {
      UnknownVerbIsRouted(line);
      UnknownIsDeliverable(cmd.verb);
    } else {
      KnownReplyIsDeliverable(cmd, m);
    }
  }

  lemma KnownReplyIsDeliverable(cmd: Command, m: Contents)
    requires StoredOk(m) && !cmd.Unknown?
    ensures Deliverable(Render(Answer(cmd, m)))
  {
    hide Text, NewlineFree;
    FixedRepliesAreAscii();
    LongRepliesAreAscii();
    match cmd
    case Nothing => EmptyIsDeliverable();
    case SyncCommand => hide Render, Deliverable; SyncReplyIsDeliverable();
    case RaftCommand => hide Render, Deliverable; RaftReplyIsDeliverable();
    case RoleCommand => PlainTextIsDeliverable("standalone (not a Raft cluster)");
    case SetCommand(_, _) => PlainTextIsDeliverable("OK");
    case GetCommand(k) => PlainTextIsDeliverable("(nil)");
    case DelCommand(k) => hide Render, Deliverable; IntegerIsDeliverable(Flag(k in m));
    case ExistsCommand(k) => hide Render, Deliverable; IntegerIsDeliverable(Flag(k in m));
    case PingCommand => PlainTextIsDeliverable("PONG");
    case QuitCommand => PlainTextIsDeliverable("OK");
    case Malformed(n) => hide Render, Deliverable; WrongArgumentsIsDeliverable(n);
  }

  lemma RaftReplyIsDeliverable()
    ensures Deliverable(Render(NotInRaft))
  {
    hide Text, NewlineFree, Ascii;
    RaftReplyIsAscii();
    AsciiText("ERR this node is ");
    PlainTextIsDeliverable("not part of a Raft cluster");
    DeliverableConcat(Text("ERR this node is "), Text("not part of a Raft cluster"));
  }

  lemma SyncReplyIsDeliverable()
    ensures Deliverable(Render(NotAReplica))
  {
    hide Text, NewlineFree, Ascii;
    SyncReplyIsAscii();
    AsciiText("ERR __REPLSYNC__ is only ");
    PlainTextIsDeliverable("valid on a read-only replica");
    DeliverableConcat(Text("ERR __REPLSYNC__ is only "), Text("valid on a read-only replica"));
  }

  lemma EmptyIsDeliverable()
    ensures Deliverable([])
  {
  }

  lemma RestIsShort(line: Bytes)
    ensures |Cut(Trimmed(line)).rest| <= |line|
  {
  }

  lemma StoredStaysOk(m: Contents, line: Bytes)
    requires StoredOk(m) && NewlineFree(line) && |line| <= MAX_LINE
    ensures StoredOk(MapAfter(m, line))
  {
    hide Tight, NewlineFree, Interpret;
    var cmd := Parse(line);
    if cmd.SetCommand? {
      SetValueFromLine(line);
      hide Parse;
    }
  }

  lemma SetValueFromLine(line: Bytes)
    requires Parse(line).SetCommand? && NewlineFree(line)
    ensures Tight(Parse(line).value) && |Parse(line).value| <= |line|
  {
    var cmd := Parse(line);
    RestIsShort(line);
    assert cmd.value == Cut(Trimmed(line)).rest by { hide Trimmed, Cut, Upper; }
    hide Parse, Trimmed, Cut;
    ParsedIsPrintable(line, Put(cmd.key, cmd.value));
  }

  /* ---------------- the cluster is one store ---------------- */

  /** Each key lives only in the shard its hash names, and together the shards hold `m`. */
  ghost predicate Partitioned(shards: seq<Contents>, m: Contents) {
    && shards != []
    && (forall i, k :: 0 <= i < |shards| && k in shards[i] ==> ShardFor(k, |shards|) == i)
    && (forall k :: Find(m, k) == Find(shards[ShardFor(k, |shards|)], k))
  }

  /** The partition survives a change of one key, made on its shard and on the whole alike. */
  lemma OneKeyChanges(shards: seq<Contents>, m: Contents, key: Bytes, i: nat, s: Contents, m': Contents)
    requires Partitioned(shards, m) && i == ShardFor(key, |shards|)
    requires forall k :: k != key ==> Find(s, k) == Find(shards[i], k) && Find(m', k) == Find(m, k)
    requires Find(s, key) == Find(m', key)
    ensures Partitioned(shards[i := s], m')
  {
    hide ShardFor;
    var after := shards[i := s];
    forall j, k | 0 <= j < |after| && k in after[j]
      ensures ShardFor(k, |after|) == j
    {
      assert k != key && j == i ==> Find(s, k) == Find(shards[i], k);
    }
    forall k
      ensures Find(m', k) == Find(after[ShardFor(k, |after|)], k)
    {
      assert Find(m, k) == Find(shards[ShardFor(k, |shards|)], k);
    }
  }

  lemma ForwardKeepsPartition(shards: seq<Contents>, m: Contents, line: Bytes, i: nat)
    requires Partitioned(shards, m) && i == ShardFor(RouterWords(line).key, |shards|)
    ensures Partitioned(shards[i := MapAfter(shards[i], line)], MapAfter(m, line))
  {
    var key, cmd := RouterWords(line).key, Parse(line);
    if Keyed(cmd) { CommandKeyIsRouted(line); }
    hide Parse, RouterWords, ShardFor, Effect, Find;
    forall k
      ensures k != key ==> Find(Effect(cmd, shards[i]), k) == Find(shards[i], k) && Find(Effect(cmd, m), k) == Find(m, k)
    {
      EffectIsLocal(cmd, m, shards[i], key, k);
      EffectIsLocal(cmd, shards[i], m, key, k);
    }
    EffectIsLocal(cmd, m, shards[i], key, key);
    OneKeyChanges(shards, m, key, i, Effect(cmd, shards[i]), Effect(cmd, m));
  }

  function Views(shards: seq<L.Cache>): (ms: seq<Contents>)
    ensures |ms| == |shards| && forall i :: 0 <= i < |shards| ==> ms[i] == L.View(shards[i])
  {
    seq(|shards|, i requires 0 <= i < |shards| => L.View(shards[i]))
  }

  predicate AllPlain(shards: seq<L.Cache>) {
    forall i :: 0 <= i < |shards| ==> Plain(shards[i])
  }

  /** The shards, unbounded and without logs, hold what the one engine `c` holds, each key on
      its own shard only. */
  ghost predicate Sharded(shards: seq<L.Cache>, c: L.Cache) {
    AllPlain(shards) && Plain(c) && Partitioned(Views(shards), L.View(c)) && StoredOk(L.View(c))
  }

  /** A routable line goes to the shard of its key, and that shard's reply comes back. */
  lemma RouteForwards(shards: seq<L.Cache>, line: Bytes)
    requires shards != [] && Routable(line)
    ensures var i := ShardFor(RouterWords(line).key, |shards|);
            var reply := Received(Terminated(ShardReply(shards[i], line)));
            && RouteLine(shards, line).shards == shards[i := ShardAfter(shards[i], line)] && !RouteLine(shards, line).close
            && (reply.Some? ==> RouteLine(shards, line).reply == reply.value)
  {
    KeyImpliesVerb(line);
    hide Parse, RouterWords, ShardFor, Received, Render, NewlineFree, Run, Text;
  }

  /** One line: the router's reply is the reply of a single store, and so is its effect. */
  lemma RouteIsServe(shards: seq<L.Cache>, c: L.Cache, line: Bytes)
    requires shards != [] && Sharded(shards, c) && Routable(line)
    ensures var r := RouteLine(shards, line);
            && r.reply == ShardReply(c, line) && !r.close
            && r.shards != [] && Sharded(r.shards, ShardAfter(c, line))
  {
    RouteForwards(shards, line);
    hide RouteLine, RouterWords, ShardFor, Received, StoredOk, NewlineFree, L.View, Plain, Partitioned, ShardReply, ShardAfter, MapReply,
      MapAfter, Routable, AllPlain;
    var i := ShardFor(RouterWords(line).key, |shards|);
    assert Plain(shards[i]) by { PlainShard(shards, i); }
    ShardIsMap(c, line);
    ShardIsMap(shards[i], line);
    ReplyFromShard(Views(shards), L.View(c), line, i);
    ForwardKeepsPartition(Views(shards), L.View(c), line, i);
    assert StoredOk(MapAfter(L.View(c), line)) by { RoutableFits(line); StoredStaysOk(L.View(c), line); }
    ReplaceShard(shards, i, ShardAfter(shards[i], line));
  }

  lemma PlainShard(shards: seq<L.Cache>, i: nat)
    requires i < |shards| && AllPlain(shards)
    ensures Plain(shards[i])
  {
  }

  lemma ReplaceShard(shards: seq<L.Cache>, i: nat, c: L.Cache)
    requires i < |shards| && AllPlain(shards) && Plain(c)
    ensures AllPlain(shards[i := c]) && Views(shards[i := c]) == Views(shards)[i := L.View(c)]
  {
    hide Plain, L.View;
  }

  lemma RoutableFits(line: Bytes)
    requires Routable(line)
    ensures NewlineFree(line) && |line| <= MAX_LINE
  {
  }

  lemma ReplyFromShard(shards: seq<Contents>, m: Contents, line: Bytes, i: nat)
    requires Partitioned(shards, m) && StoredOk(m) && Routable(line) && i == ShardFor(RouterWords(line).key, |shards|)
    ensures Received(Terminated(MapReply(shards[i], line))) == Some(MapReply(m, line))
  {
    var key, cmd := RouterWords(line).key, Parse(line);
    if Keyed(cmd) { CommandKeyIsRouted(line); }
    hide Parse, RouterWords, ShardFor, Deliverable, Received, StoredOk, Hash, Render, NewlineFree;
    AnswerIsLocal(cmd, m, shards[i], key);
    ReplyIsDeliverable(m, line);
    DeliverableIsReceived(MapReply(m, line));
  }

  datatype Routing = Routing(replies: seq<Bytes>, shards: seq<L.Cache>)

  function RouteAll(shards: seq<L.Cache>, lines: seq<Bytes>): Routing
    requires shards != []
    decreases lines
  {
    if lines == [] then Routing([], shards)
    else
      var r := RouteLine(shards, lines[0]);
      var rest := RouteAll(r.shards, lines[1..]);
      Routing([r.reply] + rest.replies, rest.shards)
  }

  datatype Serving = Serving(replies: seq<Bytes>, store: L.Cache)

  function ServeAll(c: L.Cache, lines: seq<Bytes>): Serving
    decreases lines
  {
    if lines == [] then Serving([], c)
    else
      var rest := ServeAll(ShardAfter(c, lines[0]), lines[1..]);
      Serving([ShardReply(c, lines[0])] + rest.replies, rest.store)
  }

  lemma {:induction false} RunsAgree(shards: seq<L.Cache>, c: L.Cache, lines: seq<Bytes>)
    requires shards != [] && Sharded(shards, c) && forall l :: l in lines ==> Routable(l)
    ensures RouteAll(shards, lines).replies == ServeAll(c, lines).replies
    ensures Sharded(RouteAll(shards, lines).shards, ServeAll(c, lines).store)
    decreases lines
  {
    hide RouteLine, ShardReply, ShardAfter, Sharded, Routable;
    if lines != [] {
      assert Routable(lines[0]);
      RouteIsServe(shards, c, lines[0]);
      RunsAgree(RouteLine(shards, lines[0]).shards, ShardAfter(c, lines[0]), lines[1..]);
    }
  }

  const FRESH: L.Cache := L.Cache([], 0, false, Detached, [])

  /** A sharded cluster acts like one store: for every number of shards and every sequence of
      routable lines, clients of the router see the replies of a single unsharded node, and
      afterwards the shards hold what that node holds, each key on its own shard only. */
  lemma ShardedClusterIsOneStore(n: nat, lines: seq<Bytes>)
    requires n > 0 && forall l :: l in lines ==> Routable(l)
    ensures var routed, served := RouteAll(seq(n, _ => FRESH), lines), ServeAll(FRESH, lines);
            && routed.replies == served.replies
            && AllPlain(routed.shards) && Partitioned(Views(routed.shards), L.View(served.store))
  {
    hide Routable, RouteAll, ServeAll, ShardFor;
    var shards := seq(n, _ => FRESH);
    assert L.View(FRESH) == map[];
    assert Sharded(shards, FRESH);
    RunsAgree(shards, FRESH, lines);
  }
}
