/** What clients see over whole sessions, in the bytes they send and receive: at one node, and at
    the router of any number of shards. */
module Sessions {
  import opened ByteStrings
  import opened KeyValue
  import opened Command
  import opened Lines
  import opened Execution
  import opened Router
  import Replies

  lemma {:induction false} ServeConcat(c: L.Cache, a: seq<Bytes>, b: seq<Bytes>)
    ensures var x := ServeAll(c, a); var y := ServeAll(x.store, b);
            ServeAll(c, a + b) == Serving(x.replies + y.replies, y.store) && |x.replies| == |a|
    decreases a
  {
    hide ShardReply, ShardAfter;
    if a == [] {
      assert a + b == b;
      assert [] + ServeAll(c, b).replies == ServeAll(c, b).replies;
    } else {
      assert (a + b)[1..] == a[1..] + b && (a + b)[0] == a[0];
      ServeConcat(ShardAfter(c, a[0]), a[1..], b);
    }
  }

  /** The line neither sets nor deletes `k`. */
  predicate Spares(line: Bytes, k: Bytes) {
    var cmd := Parse(line);
    !((cmd.SetCommand? || cmd.DelCommand?) && cmd.key == k)
  }

  lemma {:induction false} ServeSpares(c: L.Cache, lines: seq<Bytes>, k: Bytes)
    requires Execution.Plain(c) && forall l :: l in lines ==> Spares(l, k)
    ensures var d := ServeAll(c, lines).store; Execution.Plain(d) && Find(L.View(d), k) == Find(L.View(c), k)
    decreases lines
  {
    hide ShardReply, ShardAfter, Execution.Plain, L.View, Parse;
    if lines != [] {
      assert Spares(lines[0], k);
      ShardIsMap(c, lines[0]);
      ServeSpares(ShardAfter(c, lines[0]), lines[1..], k);
    }
  }

  lemma {:induction false} ServePlain(c: L.Cache, lines: seq<Bytes>)
    requires Execution.Plain(c)
    ensures Execution.Plain(ServeAll(c, lines).store)
    decreases lines
  {
    hide ShardReply, ShardAfter, Execution.Plain, L.View, Parse;
    if lines != [] {
      ShardIsMap(c, lines[0]);
      ServePlain(ShardAfter(c, lines[0]), lines[1..]);
    }
  }

  lemma ServeOne(c: L.Cache, line: Bytes)
    ensures ServeAll(c, [line]) == Serving([ShardReply(c, line)], ShardAfter(c, line))
  {
    hide ShardReply, ShardAfter;
    assert [line][1..] == [];
  }

  /** A read is answered with the last write: after any lines, a SET of the key, and any lines that
      spare the key, GET answers the value that was SET. */
  lemma ReadYourWrite(c: L.Cache, before: seq<Bytes>, write: Bytes, between: seq<Bytes>, read: Bytes, k: Bytes, v: Bytes)
    requires Execution.Plain(c) && Parse(write) == SetCommand(k, v) && Parse(read) == GetCommand(k)
    requires forall l :: l in between ==> Spares(l, k)
    ensures var replies := ServeAll(c, before + ([write] + (between + [read]))).replies;
            && |replies| == |before| + |between| + 2
            && replies[|before|] == [0x4F, 0x4B] && replies[|replies| - 1] == v
  {
    hide ShardReply, ShardAfter, Execution.Plain, L.View, Parse, ServeAll;
    var c1 := ServeAll(c, before).store;
    ServePlain(c, before);
    ServeConcat(c, before, [write] + (between + [read]));
    var c2 := ShardAfter(c1, write);
    ServeOne(c1, write);
    ServeConcat(c1, [write], between + [read]);
    SetAnswers(c1, write, k, v);
    var c3 := ServeAll(c2, between).store;
    ServeSpares(c2, between, k);
    ServeConcat(c2, between, [read]);
    ServeOne(c3, read);
    GetAnswers(c3, read, k);
  }

  lemma SetAnswers(c: L.Cache, line: Bytes, k: Bytes, v: Bytes)
    requires Execution.Plain(c) && Parse(line) == SetCommand(k, v)
    ensures ShardReply(c, line) == [0x4F, 0x4B]
    ensures var d := ShardAfter(c, line); Execution.Plain(d) && Find(L.View(d), k) == Some(v)
  {
    hide Parse, Run, Render, L.View;
    ShardIsMap(c, line);
    Replies.RepliesOnTheWire([], 0);
  }

  lemma GetAnswers(c: L.Cache, line: Bytes, k: Bytes)
    requires Execution.Plain(c) && Parse(line) == GetCommand(k)
    ensures Find(L.View(c), k).Some? ==> ShardReply(c, line) == Find(L.View(c), k).value
    ensures Find(L.View(c), k).None? ==> ShardReply(c, line) == [0x28, 0x6E, 0x69, 0x6C, 0x29]
  {
    hide Parse, Run, Render, L.View;
    ShardIsMap(c, line);
    Replies.RepliesOnTheWire(if k in L.View(c) then L.View(c)[k] else [], 0);
  }

  /** The lines themselves: any blanks, any case. */
  lemma SetLineIs(l: Lead, w: Bytes, gap: Bytes, k: Bytes, gap': Bytes, v: Bytes, trail: Bytes)
    requires LeadOk(l) && Blanks(gap) && gap != [] && Blanks(gap') && gap' != [] && Blanks(trail)
    requires Spells(w, "SET") && Solid(k) && v != [] && !IsSpace(v[0]) && !IsSpace(v[|v| - 1])
    ensures Parse(Line(l, w + (gap + (k + (gap' + v))), trail)) == SetCommand(k, v)
  {
    SpelledIsSolid(w, "SET");
    hide Parse, Line, Solid, Spells;
    ValueLine(l, w, gap, k, gap', v, trail);
    assert k != [] by { SolidIsSome(k); }
  }

  lemma GetLineIs(l: Lead, w: Bytes, gap: Bytes, k: Bytes, trail: Bytes)
    requires LeadOk(l) && Blanks(gap) && gap != [] && Blanks(trail) && Spells(w, "GET") && Solid(k)
    ensures Parse(Line(l, w + (gap + k), trail)) == GetCommand(k)
  {
    SpelledIsSolid(w, "GET");
    hide Parse, Line, Solid, Spells;
    KeyLine(l, w, gap, k, trail);
    assert k != [] by { SolidIsSome(k); }
  }

  lemma SolidIsSome(k: Bytes)
    requires Solid(k)
    ensures k != []
  {
  }

  /** The same through the router, over any number of shards. */
  lemma ReadYourWriteRouted(n: nat, before: seq<Bytes>, write: Bytes, between: seq<Bytes>, read: Bytes, k: Bytes, v: Bytes)
    requires n > 0 && Parse(write) == SetCommand(k, v) && Parse(read) == GetCommand(k)
    requires forall l :: l in between ==> Spares(l, k)
    requires forall l :: l in before + ([write] + (between + [read])) ==> Routable(l)
    ensures var replies := RouteAll(seq(n, _ => FRESH), before + ([write] + (between + [read]))).replies;
            && |replies| == |before| + |between| + 2
            && replies[|before|] == [0x4F, 0x4B] && replies[|replies| - 1] == v
  {
    hide Parse, Routable, RouteAll, ServeAll;
    ShardedClusterIsOneStore(n, before + ([write] + (between + [read])));
    ReadYourWrite(FRESH, before, write, between, read, k, v);
  }

  /** A line with a data command is routable, within the cap and without a newline. */
  lemma KeyedIsRoutable(line: Bytes)
    requires Keyed(Parse(line)) && NewlineFree(line) && |line| <= MAX_LINE
    ensures Routable(line)
  {
    CommandKeyIsRouted(line);
    KeyedVerb(line);
    hide Parse, RouterWords;
  }

  lemma KeyedVerb(line: Bytes)
    requires Keyed(Parse(line))
    ensures var v := RouterWords(line).verb; v != QUIT_VERB && v != EXIT_VERB && v != PING_VERB && v != INFO_VERB
    ensures KeyOf(Parse(line)) != []
  {
    hide Trimmed, Cut, RouterWords, Upper;
    TokenizersAgree(line);
  }

  /** In bytes, on a fresh cluster of any size: SET k v is answered OK, and then GET k is answered v. */
  lemma SetThenGet(n: nat, k: Bytes, v: Bytes)
    requires n > 0 && Solid(k) && Tight(v) && |k| + |v| + 5 <= 65536
    ensures var write, read := Text("SET ") + (k + ([SPACE] + v)), Text("GET ") + k;
            RouteAll(seq(n, _ => FRESH), [write, read]).replies == [[0x4F, 0x4B], v]
  {
    hide *;
    WriteLine(k, v);
    ReadLine(k);
    TwoLines(n, Text("SET ") + (k + ([SPACE] + v)), Text("GET ") + k, k, v);
  }

  lemma TwoLines(n: nat, write: Bytes, read: Bytes, k: Bytes, v: Bytes)
    requires n > 0 && Parse(write) == SetCommand(k, v) && Parse(read) == GetCommand(k)
    requires NewlineFree(write) && |write| <= 65536 && NewlineFree(read) && |read| <= 65536
    ensures RouteAll(seq(n, _ => FRESH), [write, read]).replies == [[0x4F, 0x4B], v]
  {
    hide Parse, Routable, RouteAll;
    KeyedIsRoutable(write);
    KeyedIsRoutable(read);
    assert [] + ([write] + ([] + [read])) == [write, read];
    ReadYourWriteRouted(n, [], write, [], read, k, v);
  }

  lemma WriteLine(k: Bytes, v: Bytes)
    requires Solid(k) && Tight(v)
    ensures var line := Text("SET ") + (k + ([SPACE] + v));
            Parse(line) == SetCommand(k, v) && NewlineFree(line) && |line| == |k| + |v| + 5
  {
    assert WireLine(Put(k, v)) == Text("SET ") + (k + ([SPACE] + v));
    hide Parse, Text, WireLine;
    WireRoundTrip(Put(k, v));
    SetText();
  }

  lemma SetText()
    ensures |Text("SET ")| == 4
  {
  }

  lemma ReadLine(k: Bytes)
    requires Solid(k)
    ensures var line := Text("GET ") + k; Parse(line) == GetCommand(k) && NewlineFree(line) && |line| == |k| + 4
  {
    hide Parse, Spells, Text, Line, NewlineFree, Solid;
    var w: Bytes := [0x47, 0x45, 0x54];
    GetText(w);
    GetShape(w, k);
    GetLineIs(Plain([]), w, [SPACE], k, []);
  }

  lemma GetShape(w: Bytes, k: Bytes)
    requires w == [0x47, 0x45, 0x54] && Solid(k)
    ensures var line := (w + [SPACE]) + k;
            line == Line(Plain([]), w + ([SPACE] + k), []) && NewlineFree(line) && |line| == |k| + 4
  {
  }

  lemma GetText(w: Bytes)
    requires w == [0x47, 0x45, 0x54]
    ensures Text("GET ") == w + [SPACE] && Spells(w, "GET")
  {
  }

  /** What the router answers by itself, leaving every shard alone: QUIT and EXIT, which alone
      close, PING, and any other line without a key. */
  lemma RouterAnswersItself(shards: seq<L.Cache>, l: Lead, w: Bytes, trail: Bytes)
    requires shards != [] && LeadOk(l) && Blanks(trail) && Solid(w) && w[0] != 0xEF
    ensures var r := RouteLine(shards, Line(l, w, trail));
            && r.shards == shards
            && (r.close <==> Spells(w, "QUIT") || Spells(w, "EXIT"))
            && (r.close ==> r.reply == [0x4F, 0x4B])
            && (Spells(w, "PING") ==> r.reply == [0x50, 0x4F, 0x4E, 0x47])
            && (!r.close && !Spells(w, "PING") ==> Replies.StartsWithErr(r.reply))
  {
    BareWords(l, w, trail);
    hide Trimmed, Cut, RouterWords, Spells, Upper, Text, Line, Replies.StartsWithErr, Render, ShardReply, ShardAfter;
    ShortVerbsSpelled(w);
    VerbsApart();
    ShortReplies();
    NoKeyText(Upper(w) + Text("' needs a key to route on"));
  }

  lemma VerbsApart()
    ensures PING_VERB != QUIT_VERB && PING_VERB != EXIT_VERB
  {
    hide *;
    VerbsDiffer();
  }

  lemma ShortReplies()
    ensures Text("OK") == [0x4F, 0x4B] && Text("PONG") == [0x50, 0x4F, 0x4E, 0x47]
  {
  }

  lemma BareWords(l: Lead, w: Bytes, trail: Bytes)
    requires LeadOk(l) && Blanks(trail) && Solid(w) && w[0] != 0xEF
    ensures RouterWords(Line(l, w, trail)) == Routed(Upper(w), []) && Upper(w) != []
  {
    hide Trimmed, Cut, RouterWords, LeadText;
    LineTrims(l, w, trail);
    OneWord(w);
    TokenizersAgree(Line(l, w, trail));
  }

  lemma NoKeyText(more: Bytes)
    ensures Replies.StartsWithErr(Text("ERR ROUTER: '") + more)
  {
    Replies.ErrText("ERR ROUTER: '", more);
  }

  /** A blank line is answered with an empty reply and reaches no shard. */
  lemma RouterIgnoresBlank(shards: seq<L.Cache>, l: Lead)
    requires shards != [] && LeadOk(l)
    ensures RouteLine(shards, LeadText(l)) == Outcome([], false, shards)
  {
    BlankLine(l);
    TokenizersAgree(LeadText(l));
    NoWords();
    hide Trimmed, Cut, LeadText, RouterWords;
    assert Trimmed(LeadText(l)) == [] by { NothingIsBlank(LeadText(l)); }
  }

  lemma NoWords()
    ensures Cut([]).verb == [] && Upper([]) == []
  {
  }

  lemma NothingIsBlank(line: Bytes)
    requires Parse(line) == Nothing
    ensures Trimmed(line) == []
  {
    hide Trimmed, Cut, Upper;
  }
}
