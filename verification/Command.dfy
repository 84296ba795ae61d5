/** The line protocol: how a node cuts a line into verb, key and rest, and which command that
    is. */
module Command {
  import opened ByteStrings
  import opened KeyValue

  /** ASCII text as bytes. */
  function Text(s: string): (b: Bytes)
    ensures |b| == |s|
    ensures forall i :: 0 <= i < |s| && s[i] as int < 256 ==> b[i] as int == s[i] as int
  {
    seq(|s|, i requires 0 <= i < |s| => if s[i] as int < 256 then s[i] as int as byte else 0x3F)
  }

  function UpperByte(c: byte): byte {
    if 0x61 <= c <= 0x7A then c - 0x20 else c
  }

  function Upper(s: Bytes): (u: Bytes)
    ensures |u| == |s| && forall i :: 0 <= i < |s| ==> u[i] == UpperByte(s[i])
  {
    seq(|s|, i requires 0 <= i < |s| => UpperByte(s[i]))
  }

  /* ---------------- trimming and tokens ---------------- */

  predicate BomAt(s: Bytes, i: nat) {
    i + 3 <= |s| && s[i] == 0xEF && s[i + 1] == 0xBB && s[i + 2] == 0xBF
  }

  /** Where the command starts: after whitespace, an optional byte-order mark, and whitespace
      again behind the mark. */
  function Begin(s: Bytes): (b: nat)
    ensures b <= |s|
  {
    var b := Span(Blank, s, 0);
    if BomAt(s, b) then Span(Blank, s, b + 3) else b
  }

  /** Where trailing whitespace starts. */
  function TrimmedEnd(s: Bytes, b: nat, e: nat): (r: nat)
    requires b <= e <= |s|
    ensures b <= r <= e
    ensures forall i :: r <= i < e ==> IsSpace(s[i])
    ensures r > b ==> !IsSpace(s[r - 1])
    decreases e
  {
    if e > b && IsSpace(s[e - 1]) then TrimmedEnd(s, b, e - 1) else e
  }

  function Trimmed(s: Bytes): Bytes {
    s[Begin(s)..TrimmedEnd(s, Begin(s), |s|)]
  }

  datatype Words = Words(verb: Bytes, key: Bytes, rest: Bytes)

  /** First word, second word, and everything after the whitespace behind the second. */
  function Cut(s: Bytes): Words {
    var v := Span(Token, s, 0);
    var k := Span(Blank, s, v);
    var e := Span(Token, s, k);
    var r := Span(Blank, s, e);
    Words(s[..v], s[k..e], s[r..])
  }

  method Trim(s: Bytes) returns (t: Bytes)
    ensures t == Trimmed(s)
  {
    var begin, end := 0, |s|;
    while begin < end && IsSpace(s[begin])
      invariant begin <= end && forall i :: 0 <= i < begin ==> IsSpace(s[i])
    {
      begin := begin + 1;
    }
    SpanUnique(Blank, s, 0, begin);
    if end - begin >= 3 && s[begin] == 0xEF && s[begin + 1] == 0xBB && s[begin + 2] == 0xBF {
      ghost var mark := begin;
      begin := begin + 3;
      while begin < end && IsSpace(s[begin])
        invariant mark + 3 <= begin <= end && forall i :: mark + 3 <= i < begin ==> IsSpace(s[i])
      {
        begin := begin + 1;
      }
      SpanUnique(Blank, s, mark + 3, begin);
    }
    assert begin == Begin(s);
    while end > begin && IsSpace(s[end - 1])
      invariant begin <= end <= |s| && TrimmedEnd(s, begin, end) == TrimmedEnd(s, begin, |s|)
    {
      end := end - 1;
    }
    t := s[begin..end];
  }

  method NextToken(s: Bytes, pos: nat) returns (token: Bytes, next: nat)
    requires pos <= |s|
    ensures token == s[pos..Span(Token, s, pos)] && next == Span(Blank, s, Span(Token, s, pos))
  {
    var i := pos;
    while i < |s| && !IsSpace(s[i])
      invariant pos <= i <= |s| && forall j :: pos <= j < i ==> !IsSpace(s[j])
    {
      i := i + 1;
    }
    SpanUnique(Token, s, pos, i);
    token := s[pos..i];
    ghost var end := i;
    while i < |s| && IsSpace(s[i])
      invariant end <= i <= |s| && forall j :: end <= j < i ==> IsSpace(s[j])
    {
      i := i + 1;
    }
    SpanUnique(Blank, s, end, i);
    next := i;
  }

  method ToUpper(s: Bytes) returns (u: Bytes)
    ensures u == Upper(s)
  {
    u := s;
    for i := 0 to |s|
      invariant |u| == |s|
      invariant forall j :: 0 <= j < |s| ==> u[j] == if j < i then UpperByte(s[j]) else s[j]
    {
      u := u[i := UpperByte(u[i])];
    }
  }

  /* ---------------- commands ---------------- */

  const SYNC_VERB: Bytes := Text("__REPLSYNC__")
  const VOTE_VERB: Bytes := Text("__RAFT_VOTE__")
  const APPEND_VERB: Bytes := Text("__RAFT_APPEND__")
  const ROLE_VERB: Bytes := Text("ROLE")
  const SET_VERB: Bytes := Text("SET")
  const GET_VERB: Bytes := Text("GET")
  const DEL_VERB: Bytes := Text("DEL")
  const DELETE_VERB: Bytes := Text("DELETE")
  const EXISTS_VERB: Bytes := Text("EXISTS")
  const PING_VERB: Bytes := Text("PING")
  const QUIT_VERB: Bytes := Text("QUIT")
  const EXIT_VERB: Bytes := Text("EXIT")

  datatype Name = SetName | GetName | DelName | ExistsName | PingName | QuitName

  datatype Command =
    | Nothing
    | SyncCommand
    | RaftCommand
    | RoleCommand
    | SetCommand(key: Bytes, value: Bytes)
    | GetCommand(key: Bytes)
    | DelCommand(key: Bytes)
    | ExistsCommand(key: Bytes)
    | PingCommand
    | QuitCommand
    | Malformed(name: Name)
    | Unknown(verb: Bytes)

  /** The command that three words spell, with the verb in upper case. */
  function Interpret(verb: Bytes, key: Bytes, rest: Bytes): Command {
    if verb == SYNC_VERB then SyncCommand
    else if verb == VOTE_VERB || verb == APPEND_VERB then RaftCommand
    else if verb == ROLE_VERB then RoleCommand
    else if verb == SET_VERB then
      if key == [] || rest == [] then Malformed(SetName) else SetCommand(key, rest)
    else if verb == GET_VERB then
      if key == [] || rest != [] then Malformed(GetName) else GetCommand(key)
    else if verb == DEL_VERB || verb == DELETE_VERB then
      if key == [] || rest != [] then Malformed(DelName) else DelCommand(key)
    else if verb == EXISTS_VERB then
      if key == [] || rest != [] then Malformed(ExistsName) else ExistsCommand(key)
    else if verb == PING_VERB then
      if key != [] || rest != [] then Malformed(PingName) else PingCommand
    else if verb == QUIT_VERB || verb == EXIT_VERB then
      if key != [] || rest != [] then Malformed(QuitName) else QuitCommand
    else Unknown(verb)
  }

  function Parse(line: Bytes): Command {
    var s := Trimmed(line);
    if s == [] then Nothing
    else
      var w := Cut(s);
      Interpret(Upper(w.verb), w.key, w.rest)
  }

  /* ---------------- the wire form of a mutation ---------------- */

  predicate Solid(s: Bytes) {
    s != [] && forall i :: 0 <= i < |s| ==> !IsSpace(s[i])
  }

  predicate Tight(s: Bytes) {
    s != [] && !IsSpace(s[0]) && !IsSpace(s[|s| - 1]) && NewlineFree(s)
  }

  /** The mutations that the line protocol can carry. */
  predicate Printable(op: Mutation) {
    Solid(op.key) && (op.Put? ==> Tight(op.value))
  }

  /** What the replicator prints, without the newline that ends it. */
  function WireLine(op: Mutation): Bytes {
    match op
    case Put(k, v) => Text("SET ") + (k + ([SPACE] + v))
    case Remove(k) => Text("DEL ") + k
  }

  function Requested(op: Mutation): Command {
    match op
    case Put(k, v) => SetCommand(k, v)
    case Remove(k) => DelCommand(k)
  }

  lemma TightLineIsTrimmed(s: Bytes)
    requires s != [] && !IsSpace(s[0]) && !IsSpace(s[|s| - 1]) && !BomAt(s, 0)
    ensures Trimmed(s) == s
  {
    SpanUnique(Blank, s, 0, 0);
  }

  lemma SetLineCuts(k: Bytes, v: Bytes)
    requires Solid(k) && Tight(v)
    ensures Cut(WireLine(Put(k, v))) == Words(SET_VERB, k, v)
  {
    hide Solid, Tight, Span, WireLine, Text;
    SetLineStands(k, v);
    SetLineSpans(k, v);
  }

  lemma SetLineStands(k: Bytes, v: Bytes)
    ensures var s := WireLine(Put(k, v));
            && |s| == 5 + |k| + |v| && s[..3] == SET_VERB && s[3] == SPACE
            && s[4..4 + |k|] == k && s[4 + |k|] == SPACE && s[5 + |k|..] == v
  {
  }

  lemma SetLineSpans(k: Bytes, v: Bytes)
    requires Solid(k) && Tight(v)
    ensures var s := WireLine(Put(k, v));
            Span(Token, s, 0) == 3 && Span(Blank, s, 3) == 4 && Span(Token, s, 4) == 4 + |k| && Span(Blank, s, 4 + |k|) == 5 + |k|
  {
    SetLineStands(k, v);
    SetIsSolid();
    hide Span, WireLine, Text, SET_VERB;
    var s := WireLine(Put(k, v));
    assert forall i :: 0 <= i < 3 ==> s[i] == SET_VERB[i];
    assert forall i :: 0 <= i < |k| ==> s[4 + i] == k[i] by { assert forall i :: 0 <= i < |k| ==> s[4..4 + |k|][i] == k[i]; }
    assert s[5 + |k|] == v[0] by { assert s[5 + |k|..][0] == v[0]; }
    SpanUnique(Token, s, 0, 3);
    SpanUnique(Blank, s, 3, 4);
    SpanUnique(Token, s, 4, 4 + |k|);
    SpanUnique(Blank, s, 4 + |k|, 5 + |k|);
  }

  lemma SetIsSolid()
    ensures |SET_VERB| == 3 && Solid(SET_VERB)
  {
  }

  lemma DelLineCuts(k: Bytes)
    requires Solid(k)
    ensures Cut(WireLine(Remove(k))) == Words(DEL_VERB, k, [])
  {
    var s := WireLine(Remove(k));
    assert s[..3] == DEL_VERB && s[3] == SPACE;
    assert forall i :: 0 <= i < |k| ==> s[4 + i] == k[i];
    SpanUnique(Token, s, 0, 3);
    SpanUnique(Blank, s, 3, 4);
    SpanUnique(Token, s, 4, |s|);
    assert s[4..] == k;
  }

  lemma UpperWords()
    ensures Upper(SET_VERB) == SET_VERB && Upper(DEL_VERB) == DEL_VERB
    ensures SET_VERB != DEL_VERB && SET_VERB != GET_VERB && DEL_VERB != GET_VERB
    ensures SET_VERB != DELETE_VERB && GET_VERB != DELETE_VERB
  {
    assert SET_VERB[0] == 0x53 && DEL_VERB[0] == 0x44 && GET_VERB[0] == 0x47;
  }

  lemma WireInterprets(op: Mutation)
    requires Printable(op)
    ensures Interpret(if op.Put? then SET_VERB else DEL_VERB, op.key, if op.Put? then op.value else []) == Requested(op)
  {
    UpperWords();
  }

  lemma WireLineShape(op: Mutation)
    requires Printable(op)
    ensures var s := WireLine(op); NewlineFree(s) && Trimmed(s) == s && s != []
  {
    var s := WireLine(op);
    assert s[0] == (if op.Put? then 0x53 else 0x44);
    assert forall i :: 0 <= i < |s| ==> s[i] != NEWLINE;
    TightLineIsTrimmed(s);
  }

  /** Wire round trip: what the replicator prints for a mutation, the follower reads back as
      exactly that mutation. */
  lemma WireRoundTrip(op: Mutation)
    requires Printable(op)
    ensures Parse(WireLine(op)) == Requested(op) && NewlineFree(WireLine(op))
  {
    hide Trimmed, Cut, WireLine, Text, Interpret;
    WireLineShape(op);
    UpperWords();
    WireInterprets(op);
    match op
    case Put(k, v) => SetLineCuts(k, v);
    case Remove(k) => DelLineCuts(k);
  }

  lemma PingWord()
    ensures |PING_VERB| == 4 && Upper(PING_VERB) == PING_VERB && PING_VERB[0] == 0x50
    ensures forall i :: 0 <= i < 4 ==> !IsSpace(PING_VERB[i])
  {
    assert PING_VERB[0] == 0x50 && PING_VERB[1] == 0x49 && PING_VERB[2] == 0x4E && PING_VERB[3] == 0x47;
  }

  lemma PingCuts()
    ensures Cut(PING_VERB) == Words(PING_VERB, [], [])
  {
    hide PING_VERB, Text;
    PingWord();
    SpanUnique(Token, PING_VERB, 0, 4);
    SpanUnique(Blank, PING_VERB, 4, 4);
    SpanUnique(Token, PING_VERB, 4, 4);
  }

  lemma PingInterprets()
    ensures Interpret(PING_VERB, [], []) == PingCommand
  {
    assert PING_VERB[0] == 0x50;
    assert SYNC_VERB[0] == 0x5F && VOTE_VERB[0] == 0x5F && APPEND_VERB[0] == 0x5F && ROLE_VERB[0] == 0x52;
    assert SET_VERB[0] == 0x53 && GET_VERB[0] == 0x47 && DEL_VERB[0] == 0x44 && DELETE_VERB[0] == 0x44 && EXISTS_VERB[0] == 0x45;
  }

  /** The replicator's heartbeat line is the PING command. */
  lemma PingLine()
    ensures Parse(PING_VERB) == PingCommand
  {
    hide Trimmed, Cut, Text, Interpret, PING_VERB;
    PingWord();
    TightLineIsTrimmed(PING_VERB);
    PingCuts();
    PingInterprets();
  }

  lemma TrimmedEnds(line: Bytes)
    ensures var s := Trimmed(line);
            s != [] ==> !IsSpace(s[0]) && !IsSpace(s[|s| - 1])
    ensures NewlineFree(line) ==> NewlineFree(Trimmed(line))
  {
    var b := Begin(line);
    var e := TrimmedEnd(line, b, |line|);
    assert b < |line| ==> !IsSpace(line[b]);
    assert forall i :: 0 <= i < e - b ==> Trimmed(line)[i] == line[b + i];
  }

  lemma CutParts(s: Bytes)
    requires s != [] && !IsSpace(s[|s| - 1]) && NewlineFree(s)
    ensures var w := Cut(s); (w.key != [] ==> Solid(w.key)) && (w.rest != [] ==> Tight(w.rest))
  {
    var k := Span(Blank, s, Span(Token, s, 0));
    var e := Span(Token, s, k);
    var r := Span(Blank, s, e);
    assert forall i :: 0 <= i < e - k ==> s[k..e][i] == s[k + i];
    assert forall i :: 0 <= i < |s| - r ==> s[r..][i] == s[r + i];
  }

  /** Every mutation that a newline-free line asks for can be carried on: the printable set is
      closed under hops from leader to follower. */
  lemma ParsedIsPrintable(line: Bytes, op: Mutation)
    requires NewlineFree(line) && Parse(line) == Requested(op)
    ensures Printable(op)
  {
    hide Trimmed, Cut, Text, Upper;
    TrimmedEnds(line);
    CutParts(Trimmed(line));
  }

  /* ---------------- the router's own tokenizer ---------------- */

  datatype Routed = Routed(verb: Bytes, key: Bytes)

  function RouterWords(line: Bytes): Routed {
    var b := Begin(line);
    var v := Span(Token, line, b);
    var k := Span(Blank, line, v);
    Routed(Upper(line[b..v]), line[k..Span(Token, line, k)])
  }

  /** The router never trims the end of the line; it walks the raw bytes. */
  method VerbAndKey(line: Bytes) returns (verb: Bytes, key: Bytes)
    ensures Routed(verb, key) == RouterWords(line)
  {
    var i := SkipSpace(line, 0);
    if |line| - i >= 3 && line[i] == 0xEF && line[i + 1] == 0xBB && line[i + 2] == 0xBF {
      i := SkipSpace(line, i + 3);
    }
    var v := SkipToken(line, i);
    var k := SkipSpace(line, v);
    var e := SkipToken(line, k);
    verb := ToUpper(line[i..v]);
    key := line[k..e];
  }

  method SkipSpace(line: Bytes, start: nat) returns (i: nat)
    requires start <= |line|
    ensures i == Span(Blank, line, start)
  {
    i := start;
    while i < |line| && IsSpace(line[i])
      invariant start <= i <= |line| && forall j :: start <= j < i ==> IsSpace(line[j])
    {
      i := i + 1;
    }
    SpanUnique(Blank, line, start, i);
  }

  method SkipToken(line: Bytes, start: nat) returns (i: nat)
    requires start <= |line|
    ensures i == Span(Token, line, start)
  {
    i := start;
    while i < |line| && !IsSpace(line[i])
      invariant start <= i <= |line| && forall j :: start <= j < i ==> !IsSpace(line[j])
    {
      i := i + 1;
    }
    SpanUnique(Token, line, start, i);
  }

  /** `s` is `line` from `b` on without trailing whitespace. */
  predicate CoreOf(s: Bytes, line: Bytes, b: nat) {
    && b + |s| <= |line| && line[b..b + |s|] == s
    && (forall i :: b + |s| <= i < |line| ==> IsSpace(line[i]))
    && (s != [] ==> !IsSpace(s[|s| - 1]))
  }

  /** A word ends at the same byte whether or not the trailing whitespace was cut first. */
  lemma WordInCore(s: Bytes, line: Bytes, b: nat, i: nat)
    requires CoreOf(s, line, b) && i <= |s|
    ensures Span(Token, line, b + i) == b + Span(Token, s, i)
  {
    var e := Span(Token, s, i);
    assert forall j :: 0 <= j < |s| ==> line[b + j] == s[j];
    assert forall j :: b + i <= j < b + e ==> Token.Has(line[j]) by {
      forall j | b + i <= j < b + e
        ensures Token.Has(line[j])
      {
        assert line[j] == s[j - b];
      }
    }
    SpanUnique(Token, line, b + i, b + e);
  }

  /** Whitespace inside the core ends at the same byte; whitespace at its end runs on to the
      end of the line. */
  lemma GapInCore(s: Bytes, line: Bytes, b: nat, i: nat)
    requires CoreOf(s, line, b) && i <= |s|
    ensures i < |s| ==> Span(Blank, s, i) < |s| && Span(Blank, line, b + i) == b + Span(Blank, s, i)
    ensures i == |s| ==> Span(Blank, line, b + i) == |line|
  {
    assert forall j :: 0 <= j < |s| ==> line[b + j] == s[j];
    if i < |s| {
      var e := Span(Blank, s, i);
      assert e < |s|;
      assert forall j :: b + i <= j < b + e ==> Blank.Has(line[j]) by {
        forall j | b + i <= j < b + e
          ensures Blank.Has(line[j])
        {
          assert line[j] == s[j - b];
        }
      }
      SpanUnique(Blank, line, b + i, b + e);
    } else {
      SpanUnique(Blank, line, b + i, |line|);
    }
  }

  lemma TrimmedIsCore(line: Bytes)
    ensures CoreOf(Trimmed(line), line, Begin(line))
  {
  }

  lemma CoreSlice(s: Bytes, line: Bytes, b: nat, i: nat, j: nat)
    requires CoreOf(s, line, b) && i <= j <= |s|
    ensures b + j <= |line| && line[b + i..b + j] == s[i..j]
  {
    assert forall n :: 0 <= n < |s| ==> line[b + n] == s[n];
  }

  /** The key behind a verb that ends at `v`. */
  lemma KeysAgree(s: Bytes, line: Bytes, b: nat, v: nat)
    requires CoreOf(s, line, b) && v <= |s|
    ensures b + v <= |line|
    ensures var k, k' := Span(Blank, line, b + v), Span(Blank, s, v);
            line[k..Span(Token, line, k)] == s[k'..Span(Token, s, k')]
  {
    CoreSlice(s, line, b, v, v);
    GapInCore(s, line, b, v);
    if v < |s| {
      hide Span, CoreOf;
      var k := Span(Blank, s, v);
      WordInCore(s, line, b, k);
      CoreSlice(s, line, b, k, Span(Token, s, k));
    } else {
      hide CoreOf;
    }
  }

  lemma VerbsAgree(s: Bytes, line: Bytes, b: nat)
    requires CoreOf(s, line, b)
    ensures b <= |line|
    ensures var v, v' := Span(Token, line, b), Span(Token, s, 0); v == b + v' && line[b..v] == s[..v']
  {
    hide Span;
    WordInCore(s, line, b, 0);
    CoreSlice(s, line, b, 0, Span(Token, s, 0));
  }

  /** The two tokenizers agree: for every byte string, the verb and key by which the router
      forwards are the verb and key that the shard will find. */
  lemma TokenizersAgree(line: Bytes)
    ensures var w := Cut(Trimmed(line)); RouterWords(line) == Routed(Upper(w.verb), w.key)
  {
    hide Trimmed, Begin, Span, CoreOf, Upper;
    TrimmedIsCore(line);
    var s, b := Trimmed(line), Begin(line);
    VerbsAgree(s, line, b);
    KeysAgree(s, line, b, Span(Token, s, 0));
  }
}
