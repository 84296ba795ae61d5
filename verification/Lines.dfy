/** What a line means, said without the functions that take it apart: blanks and an optional byte
    order mark, a verb in any mixture of upper and lower case, blanks, a key, blanks, a value,
    blanks. */
module Lines {
  import opened ByteStrings
  import opened Command

  /** Spaces, tabs, line feeds, vertical tabs, form feeds, carriage returns. */
  predicate IsBlank(c: byte) {
    c == 0x20 || c == 0x09 || c == 0x0A || c == 0x0B || c == 0x0C || c == 0x0D
  }

  predicate Blanks(s: Bytes) {
    forall i :: 0 <= i < |s| ==> IsBlank(s[i])
  }

  const MARK: Bytes := [0xEF, 0xBB, 0xBF]

  /** What may stand before a command. */
  datatype Lead = Plain(blanks: Bytes) | Marked(before: Bytes, after: Bytes)

  predicate LeadOk(l: Lead) {
    match l
    case Plain(b) => Blanks(b)
    case Marked(b, a) => Blanks(b) && Blanks(a)
  }

  function LeadText(l: Lead): Bytes {
    match l
    case Plain(b) => b
    case Marked(b, a) => b + (MARK + a)
  }

  /** The verb `name`, each letter in either case. */
  predicate Spells(w: Bytes, name: string) {
    && |w| == |name|
    && forall i :: 0 <= i < |w| ==> w[i] as int == name[i] as int || ('A' <= name[i] <= 'Z' && w[i] as int == name[i] as int + 32)
  }

  predicate Capitals(name: string) {
    forall i :: 0 <= i < |name| ==> '_' == name[i] || 'A' <= name[i] <= 'Z'
  }

  /** Case is ignored for letters, and for letters alone. */
  lemma SpelledUpper(w: Bytes, name: string)
    requires Capitals(name)
    ensures Upper(w) == Text(name) <==> Spells(w, name)
  {
    hide Text;
    if Spells(w, name) {
      assert forall i :: 0 <= i < |w| ==> Upper(w)[i] == Text(name)[i];
    }
    if Upper(w) == Text(name) {
      forall i | 0 <= i < |w|
        ensures w[i] as int == name[i] as int || ('A' <= name[i] <= 'Z' && w[i] as int == name[i] as int + 32)
      {
        assert Upper(w)[i] == Text(name)[i];
      }
    }
  }

  lemma SpelledIsSolid(w: Bytes, name: string)
    requires Capitals(name) && Spells(w, name) && name != ""
    ensures Solid(w) && w[0] != 0xEF
  {
  }

  /* ---------------- trimming ---------------- */

  lemma {:induction false} TrimmedEndIs(s: Bytes, b: nat, e: nat, end: nat)
    requires b < e <= end <= |s| && !IsSpace(s[e - 1]) && forall i :: e <= i < end ==> IsSpace(s[i])
    ensures TrimmedEnd(s, b, end) == e
    decreases end
  {
    if end > e {
      TrimmedEndIs(s, b, e, end - 1);
    }
  }

  lemma PlainBegin(blanks: Bytes, rest: Bytes)
    requires Blanks(blanks) && rest != [] && !IsSpace(rest[0]) && rest[0] != 0xEF
    ensures Begin(blanks + rest) == |blanks|
  {
    var s := blanks + rest;
    assert forall i :: 0 <= i < |rest| ==> s[|blanks| + i] == rest[i];
    assert s[|blanks|] == rest[0];
    SpanUnique(Blank, s, 0, |blanks|);
  }

  lemma MarkedBegin(before: Bytes, after: Bytes, rest: Bytes)
    requires Blanks(before) && Blanks(after) && rest != [] && !IsSpace(rest[0])
    ensures Begin((before + (MARK + after)) + rest) == |before| + 3 + |after|
  {
    var s := (before + (MARK + after)) + rest;
    var b := |before|;
    assert s[b] == 0xEF && s[b + 1] == 0xBB && s[b + 2] == 0xBF;
    assert forall i :: 0 <= i < b ==> s[i] == before[i];
    assert forall i :: 0 <= i < |after| ==> s[b + 3 + i] == after[i];
    assert s[b + 3 + |after|] == rest[0];
    SpanUnique(Blank, s, 0, b);
    SpanUnique(Blank, s, b + 3, b + 3 + |after|);
  }

  /** What is left when the blanks at both ends and the mark are gone. */
  lemma LineTrims(l: Lead, core: Bytes, trail: Bytes)
    requires LeadOk(l) && Blanks(trail) && core != [] && !IsSpace(core[0]) && !IsSpace(core[|core| - 1])
    requires l.Plain? ==> core[0] != 0xEF
    ensures Trimmed(LeadText(l) + (core + trail)) == core
  {
    var lead, rest := LeadText(l), core + trail;
    var s := lead + rest;
    assert Begin(s) == |lead| by {
      hide Begin;
      match l
      case Plain(b) => PlainBegin(b, rest);
      case Marked(b, a) => MarkedBegin(b, a, rest);
    }
    hide Begin, LeadText;
    var e := |lead| + |core|;
    assert s[e - 1] == core[|core| - 1];
    assert forall i :: e <= i < |s| ==> s[i] == trail[i - e];
    TrimmedEndIs(s, |lead|, e, |s|);
    assert s[|lead|..e] == core;
  }

  /* ---------------- words ---------------- */

  lemma OneWord(w: Bytes)
    requires Solid(w)
    ensures Cut(w) == Words(w, [], [])
  {
    SpanUnique(Token, w, 0, |w|);
    SpanUnique(Blank, w, |w|, |w|);
    SpanUnique(Token, w, |w|, |w|);
  }

  lemma TwoWords(w: Bytes, gap: Bytes, k: Bytes)
    requires Solid(w) && Blanks(gap) && gap != [] && Solid(k)
    ensures Cut(w + (gap + k)) == Words(w, k, [])
  {
    hide Solid, Blanks, Span;
    var s := w + (gap + k);
    TwoSpans(w, gap, k);
    assert s[..|w|] == w && s[|w| + |gap|..] == k;
  }

  lemma TwoSpans(w: Bytes, gap: Bytes, k: Bytes)
    requires Solid(w) && Blanks(gap) && gap != [] && Solid(k)
    ensures var s := w + (gap + k); var a := |w|; var b := a + |gap|;
            && Span(Token, s, 0) == a && Span(Blank, s, a) == b && Span(Token, s, b) == |s| && Span(Blank, s, |s|) == |s|
  {
    hide Span;
    var s := w + (gap + k);
    var a := |w|;
    var b := a + |gap|;
    TwoStand(w, gap, k);
    SpanUnique(Token, s, 0, a);
    SpanUnique(Blank, s, a, b);
    SpanUnique(Token, s, b, |s|);
    SpanUnique(Blank, s, |s|, |s|);
  }

  lemma TwoStand(w: Bytes, gap: Bytes, k: Bytes)
    ensures var s := w + (gap + k); var a := |w|; var b := a + |gap|;
            && (forall i :: 0 <= i < a ==> s[i] == w[i])
            && (forall i :: a <= i < b ==> s[i] == gap[i - a])
            && (forall i :: b <= i < |s| ==> s[i] == k[i - b])
  {
  }

  lemma ThreeWords(w: Bytes, gap: Bytes, k: Bytes, gap': Bytes, v: Bytes)
    requires Solid(w) && Blanks(gap) && gap != [] && Solid(k) && Blanks(gap') && gap' != [] && v != [] && !IsSpace(v[0])
    ensures Cut(w + (gap + (k + (gap' + v)))) == Words(w, k, v)
  {
    var s := w + (gap + (k + (gap' + v)));
    var a := |w|;
    var b := a + |gap|;
    var c := b + |k|;
    var d := c + |gap'|;
    WordsStand(w, gap, k, gap', v);
    SpanUnique(Token, s, 0, a);
    SpanUnique(Blank, s, a, b);
    SpanUnique(Token, s, b, c);
    SpanUnique(Blank, s, c, d);
    assert s[..a] == w && s[b..c] == k && s[d..] == v;
  }

  lemma WordsStand(w: Bytes, gap: Bytes, k: Bytes, gap': Bytes, v: Bytes)
    ensures var s := w + (gap + (k + (gap' + v))); var a := |w|; var b := a + |gap|; var c := b + |k|; var d := c + |gap'|;
            && (forall i :: 0 <= i < a ==> s[i] == w[i])
            && (forall i :: a <= i < b ==> s[i] == gap[i - a])
            && (forall i :: b <= i < c ==> s[i] == k[i - b])
            && (forall i :: c <= i < d ==> s[i] == gap'[i - c])
            && (forall i :: d <= i < |s| ==> s[i] == v[i - d])
  {
  }

  /* ---------------- verbs ---------------- */

  /** The commands that three words spell, verb by verb. */
  predicate Means(cmd: Command, w: Bytes, k: Bytes, v: Bytes) {
    && (Spells(w, "SET") ==> cmd == if k == [] || v == [] then Malformed(SetName) else SetCommand(k, v))
    && (Spells(w, "GET") ==> cmd == if k == [] || v != [] then Malformed(GetName) else GetCommand(k))
    && (Spells(w, "DEL") || Spells(w, "DELETE") ==> cmd == if k == [] || v != [] then Malformed(DelName) else DelCommand(k))
    && (Spells(w, "EXISTS") ==> cmd == if k == [] || v != [] then Malformed(ExistsName) else ExistsCommand(k))
    && (Spells(w, "PING") ==> cmd == if k != [] || v != [] then Malformed(PingName) else PingCommand)
    && (Spells(w, "QUIT") || Spells(w, "EXIT") ==> cmd == if k != [] || v != [] then Malformed(QuitName) else QuitCommand)
    && (Spells(w, "__REPLSYNC__") ==> cmd == SyncCommand)
    && (Spells(w, "__RAFT_VOTE__") || Spells(w, "__RAFT_APPEND__") ==> cmd == RaftCommand)
    && (Spells(w, "ROLE") ==> cmd == RoleCommand)
    && (Known(w) <==> !cmd.Unknown?) && (cmd.Unknown? ==> cmd == Unknown(Upper(w)))
  }

  predicate Known(w: Bytes) {
    || Spells(w, "SET") || Spells(w, "GET") || Spells(w, "DEL") || Spells(w, "DELETE") || Spells(w, "EXISTS")
    || Spells(w, "PING") || Spells(w, "QUIT") || Spells(w, "EXIT")
    || Spells(w, "__REPLSYNC__") || Spells(w, "__RAFT_VOTE__") || Spells(w, "__RAFT_APPEND__") || Spells(w, "ROLE")
  }

  /** The verbs in upper case are those texts, no two of them the same. */
  lemma VerbsDiffer()
    ensures |SET_VERB| == 3 && SET_VERB[0] == 0x53 && |GET_VERB| == 3 && GET_VERB[0] == 0x47 && |DEL_VERB| == 3 && DEL_VERB[0] == 0x44
    ensures |DELETE_VERB| == 6 && DELETE_VERB[0] == 0x44 && |EXISTS_VERB| == 6 && EXISTS_VERB[0] == 0x45
    ensures |PING_VERB| == 4 && PING_VERB[0] == 0x50 && |QUIT_VERB| == 4 && QUIT_VERB[0] == 0x51 && |EXIT_VERB| == 4 && EXIT_VERB[0] == 0x45
    ensures |ROLE_VERB| == 4 && ROLE_VERB[0] == 0x52 && |SYNC_VERB| == 12 && |VOTE_VERB| == 13 && |APPEND_VERB| == 15
  {
  }

  lemma ShortVerbsSpelled(w: Bytes)
    ensures Spells(w, "SET") <==> Upper(w) == SET_VERB
    ensures Spells(w, "GET") <==> Upper(w) == GET_VERB
    ensures Spells(w, "DEL") <==> Upper(w) == DEL_VERB
    ensures Spells(w, "PING") <==> Upper(w) == PING_VERB
    ensures Spells(w, "QUIT") <==> Upper(w) == QUIT_VERB
    ensures Spells(w, "EXIT") <==> Upper(w) == EXIT_VERB
    ensures Spells(w, "ROLE") <==> Upper(w) == ROLE_VERB
  {
    hide Spells, Upper, Text;
    SpelledUpper(w, "SET");
    SpelledUpper(w, "GET");
    SpelledUpper(w, "DEL");
    SpelledUpper(w, "PING");
    SpelledUpper(w, "QUIT");
    SpelledUpper(w, "EXIT");
    SpelledUpper(w, "ROLE");
  }

  lemma LongVerbsSpelled(w: Bytes)
    ensures Spells(w, "DELETE") <==> Upper(w) == DELETE_VERB
    ensures Spells(w, "EXISTS") <==> Upper(w) == EXISTS_VERB
    ensures Spells(w, "__REPLSYNC__") <==> Upper(w) == SYNC_VERB
    ensures Spells(w, "__RAFT_VOTE__") <==> Upper(w) == VOTE_VERB
    ensures Spells(w, "__RAFT_APPEND__") <==> Upper(w) == APPEND_VERB
  {
    hide Spells, Upper, Text;
    SpelledUpper(w, "DELETE");
    SpelledUpper(w, "EXISTS");
    SpelledUpper(w, "__REPLSYNC__");
    SpelledUpper(w, "__RAFT_VOTE__");
    SpelledUpper(w, "__RAFT_APPEND__");
  }

  lemma WordsMean(w: Bytes, k: Bytes, v: Bytes)
    ensures Means(Interpret(Upper(w), k, v), w, k, v)
  {
    hide Spells, Upper, SYNC_VERB, VOTE_VERB, APPEND_VERB, ROLE_VERB, SET_VERB, GET_VERB, DEL_VERB, DELETE_VERB, EXISTS_VERB, PING_VERB,
      QUIT_VERB, EXIT_VERB;
    ShortVerbsSpelled(w);
    LongVerbsSpelled(w);
    VerbsDiffer();
  }

  /* ---------------- lines ---------------- */

  function Line(l: Lead, core: Bytes, trail: Bytes): Bytes {
    LeadText(l) + (core + trail)
  }

  /** A line that is one word. */
  lemma BareLine(l: Lead, w: Bytes, trail: Bytes)
    requires LeadOk(l) && Blanks(trail) && Solid(w) && w[0] != 0xEF
    ensures Means(Parse(Line(l, w, trail)), w, [], [])
  {
    hide Trimmed, Cut, Interpret, Means, Upper;
    LineTrims(l, w, trail);
    OneWord(w);
    WordsMean(w, [], []);
  }

  /** A line that is a verb and a key. */
  lemma KeyLine(l: Lead, w: Bytes, gap: Bytes, k: Bytes, trail: Bytes)
    requires LeadOk(l) && Blanks(gap) && gap != [] && Blanks(trail) && Solid(w) && Solid(k) && w[0] != 0xEF
    ensures Means(Parse(Line(l, w + (gap + k), trail)), w, k, [])
  {
    hide Trimmed, Cut, Interpret, Means, Upper;
    var core := w + (gap + k);
    assert core[0] == w[0] && core[|core| - 1] == k[|k| - 1];
    LineTrims(l, core, trail);
    TwoWords(w, gap, k);
    WordsMean(w, k, []);
  }

  /** A line that is a verb, a key, and anything else that neither starts nor ends with a blank. */
  lemma ValueLine(l: Lead, w: Bytes, gap: Bytes, k: Bytes, gap': Bytes, v: Bytes, trail: Bytes)
    requires LeadOk(l) && Blanks(gap) && gap != [] && Blanks(gap') && gap' != [] && Blanks(trail)
    requires Solid(w) && Solid(k) && w[0] != 0xEF && v != [] && !IsSpace(v[0]) && !IsSpace(v[|v| - 1])
    ensures Means(Parse(Line(l, w + (gap + (k + (gap' + v))), trail)), w, k, v)
  {
    hide Trimmed, Cut, Interpret, Means, Upper;
    var core := w + (gap + (k + (gap' + v)));
    assert core[0] == w[0] && core[|core| - 1] == v[|v| - 1];
    LineTrims(l, core, trail);
    ThreeWords(w, gap, k, gap', v);
    WordsMean(w, k, v);
  }

  /** A line of blanks, with or without a mark among them, asks for nothing. */
  lemma BlankLine(l: Lead)
    requires LeadOk(l)
    ensures Parse(LeadText(l)) == Nothing
  {
    match l
    case Plain(b) =>
      SpanUnique(Blank, b, 0, |b|);
    case Marked(b, a) =>
      var s := b + (MARK + a);
      assert s[|b|] == 0xEF && s[|b| + 1] == 0xBB && s[|b| + 2] == 0xBF;
      assert forall i :: 0 <= i < |b| ==> s[i] == b[i];
      assert forall i :: 0 <= i < |a| ==> s[|b| + 3 + i] == a[i];
      SpanUnique(Blank, s, 0, |b|);
      SpanUnique(Blank, s, |b| + 3, |s|);
  }
}
