/** The record format shared by the write-ahead log and the disk engine,

      SET <klen> <vlen> <key><value>\n        DEL <klen> <key>\n

    with the two readers that scan it after a restart, and what a scan finds in a file whose
    last record was cut short. */
module Records {
  import opened ByteStrings
  import opened KeyValue
  import opened Streams

  const SET_WORD: Bytes := [0x53, 0x45, 0x54]
  const DEL_WORD: Bytes := [0x44, 0x45, 0x4C]

  /** The cap on a field length that both readers enforce: 256 MiB. */
  const MAX_FIELD: nat := 268_435_456

  predicate FieldOk(s: Bytes) {
    0 < |s| <= MAX_FIELD
  }

  predicate AllStorable(m: Contents) {
    forall k :: k in m ==> FieldOk(k) && FieldOk(m[k])
  }

  /** The mutations whose records the readers accept back. */
  predicate Storable(op: Mutation) {
    FieldOk(op.key) && (op.Put? ==> FieldOk(op.value))
  }

  /* ---------------- writing ---------------- */

  function HeaderText(op: Mutation): (h: Bytes)
    ensures |h| >= 4
  {
    match op
    case Put(k, v) => SET_WORD + (LengthText(|k|) + (LengthText(|v|) + [SPACE]))
    case Remove(k) => DEL_WORD + (LengthText(|k|) + [SPACE])
  }

  function BodyText(op: Mutation): Bytes {
    match op
    case Put(k, v) => k + (v + [NEWLINE])
    case Remove(k) => k + [NEWLINE]
  }

  function Encode(op: Mutation): (r: Bytes)
    ensures |r| > 0
  {
    HeaderText(op) + BodyText(op)
  }

  function EncodeAll(ops: seq<Mutation>): Bytes {
    if ops == [] then [] else Encode(ops[0]) + EncodeAll(ops[1..])
  }

  /** How much of an `n`-byte record reaches the file when the device takes `room` more bytes.
      The append is reported good only if something is left over, so a failed append may have
      left any prefix of the record, all of it included. */
  function Taken(room: nat, n: nat): (t: nat)
    ensures t <= n
  {
    if room < n then room else n
  }

  /* ---------------- reading ---------------- */

  datatype Header = SetHeader(klen: nat, vlen: nat, body: nat) | DelHeader(klen: nat, body: nat)

  /** The first half of both reading loops: operation word, lengths, their sanity checks and
      the single space before the data. */
  function ReadHeader(f: Bytes, pos: nat): (r: Option<Header>)
    requires pos <= |f|
    ensures r.Some? ==> pos < r.value.body <= |f| && 0 < r.value.klen <= MAX_FIELD
    ensures r.Some? && r.value.SetHeader? ==> 0 < r.value.vlen <= MAX_FIELD
  {
    var word :- ReadToken(f, pos);
    if word.item == SET_WORD then
      var klen :- ReadSize(f, word.next);
      var vlen :- ReadSize(f, klen.next);
      if klen.item == 0 || vlen.item == 0 || klen.item > MAX_FIELD || vlen.item > MAX_FIELD then None
      else if vlen.next == |f| || f[vlen.next] != SPACE then None
      else Some(SetHeader(klen.item, vlen.item, vlen.next + 1))
    else if word.item == DEL_WORD then
      var klen :- ReadSize(f, word.next);
      if klen.item == 0 || klen.item > MAX_FIELD then None
      else if klen.next == |f| || f[klen.next] != SPACE then None
      else Some(DelHeader(klen.item, klen.next + 1))
    else
      None
  }

  /** One iteration of the log replay: key and value are both read. */
  function WalRead(f: Bytes, pos: nat): (r: Option<Extracted<Mutation>>)
    requires pos <= |f|
    ensures r.Some? ==> pos < r.value.next <= |f| && Storable(r.value.item)
  {
    var h :- ReadHeader(f, pos);
    var k := h.body + h.klen;
    match h
    case SetHeader(_, vlen, body) =>
      var e := k + vlen;
      if |f| < e then None
      else if e == |f| || f[e] != NEWLINE then None
      else Some(Extracted(Put(f[body..k], f[k..e]), e + 1))
    case DelHeader(_, body) =>
      if |f| < k then None
      else if k == |f| || f[k] != NEWLINE then None
      else Some(Extracted(Remove(f[body..k]), k + 1))
  }

  /** Where a live value sits in the data file. */
  datatype Entry = Entry(pos: nat, len: nat)

  datatype Located = SetAt(key: Bytes, entry: Entry) | DelAt(key: Bytes)

  /** One iteration of disk recovery: the value is skipped by seeking, which may run past the
      end of the file and is only caught by the read of the terminator that follows. */
  function DiskRead(f: Bytes, pos: nat): (r: Option<Extracted<Located>>)
    requires pos <= |f|
    ensures r.Some? ==> pos < r.value.next <= |f|
  {
    var h :- ReadHeader(f, pos);
    var k := h.body + h.klen;
    if |f| < k then None
    else match h
      case SetHeader(_, vlen, body) =>
        var seek := k + vlen;
        if seek >= |f| || f[seek] != NEWLINE then None
        else Some(Extracted(SetAt(f[body..k], Entry(k, vlen)), seek + 1))
      case DelHeader(_, body) =>
        if k == |f| || f[k] != NEWLINE then None
        else Some(Extracted(DelAt(f[body..k]), k + 1))
  }

  /* ---------------- the two readers agree ---------------- */

  function Locate(r: Extracted<Mutation>): Extracted<Located>
    requires r.item.Put? ==> r.next > |r.item.value|
  {
    match r.item
    case Put(k, v) => Extracted(SetAt(k, Entry(r.next - 1 - |v|, |v|)), r.next)
    case Remove(k) => Extracted(DelAt(k), r.next)
  }

  /** Skipping the value accepts exactly the records that reading it accepts, and the entry it
      records spans exactly the value that would have been read. */
  lemma SkippingReaderRefines(f: Bytes, pos: nat)
    requires pos <= |f|
    ensures DiskRead(f, pos).None? <==> WalRead(f, pos).None?
    ensures WalRead(f, pos).Some? ==>
              var r := WalRead(f, pos).value;
              && (r.item.Put? ==> r.next > |r.item.value| && f[r.next - 1 - |r.item.value|..r.next - 1] == r.item.value)
              && DiskRead(f, pos).value == Locate(r)
  {
    hide ReadHeader;
  }

  /* ---------------- reads look no further than the record ---------------- */

  lemma HeaderStable(g: Bytes, f: Bytes, pos: nat)
    requires pos <= |g| && g <= f
    ensures ReadHeader(g, pos).Some? ==> ReadHeader(f, pos) == ReadHeader(g, pos)
    ensures ReadHeader(f, pos).Some? && ReadHeader(f, pos).value.body <= |g| ==>
              ReadHeader(g, pos) == ReadHeader(f, pos)
  {
    hide ReadToken, ReadSize;
    TokenStable(g, f, pos);
    var inG, inF := ReadToken(g, pos), ReadToken(f, pos);
    if inG.Some? {
      SizeStable(g, f, inG.value.next);
      var k := ReadSize(g, inG.value.next);
      if k.Some? {
        SizeStable(g, f, k.value.next);
      }
    }
    if inF.Some? && inF.value.next <= |g| {
      SizeStable(g, f, inF.value.next);
      var k := ReadSize(f, inF.value.next);
      if k.Some? && k.value.next <= |g| {
        SizeStable(g, f, k.value.next);
      }
    }
  }

  /** A record accepted in `g` is accepted in every extension of `g`; a record accepted in `f`
      that ends inside the prefix `g` is accepted in `g`. */
  lemma WalReadStable(g: Bytes, f: Bytes, pos: nat)
    requires pos <= |g| && g <= f
    ensures WalRead(g, pos).Some? ==> WalRead(f, pos) == WalRead(g, pos)
    ensures WalRead(f, pos).Some? && WalRead(f, pos).value.next <= |g| ==>
              WalRead(g, pos) == WalRead(f, pos)
  {
    hide ReadHeader;
    HeaderStable(g, f, pos);
    var h := ReadHeader(f, pos);
    if h.Some? && h.value.body + h.value.klen <= |g| {
      var k := h.value.body + h.value.klen;
      assert f[h.value.body..k] == g[h.value.body..k];
      if h.value.SetHeader? && k + h.value.vlen <= |g| {
        assert f[k..k + h.value.vlen] == g[k..k + h.value.vlen];
      }
    }
  }

  /* ---------------- written records read back ---------------- */

  /** Where the parts of a printed SET header stand. */
  lemma SetHeaderCuts(f: Bytes, pos: nat, klen: Bytes, vlen: Bytes)
    requires At(f, pos, SET_WORD + (klen + (vlen + [SPACE])))
    ensures At(f, pos, SET_WORD) && At(f, pos + 3, klen) && At(f, pos + 3 + |klen|, vlen)
    ensures var e := pos + 3 + |klen| + |vlen|; e < |f| && f[e] == SPACE
  {
    hide At;
    AtConcat(f, pos, SET_WORD, klen + (vlen + [SPACE]));
    AtConcat(f, pos + 3, klen, vlen + [SPACE]);
    AtConcat(f, pos + 3 + |klen|, vlen, [SPACE]);
    SingleAt(f, pos + 3 + |klen| + |vlen|, SPACE);
  }

  lemma DelHeaderCuts(f: Bytes, pos: nat, klen: Bytes)
    requires At(f, pos, DEL_WORD + (klen + [SPACE]))
    ensures At(f, pos, DEL_WORD) && At(f, pos + 3, klen)
    ensures var e := pos + 3 + |klen|; e < |f| && f[e] == SPACE
  {
    hide At;
    AtConcat(f, pos, DEL_WORD, klen + [SPACE]);
    AtConcat(f, pos + 3, klen, [SPACE]);
    SingleAt(f, pos + 3 + |klen|, SPACE);
  }

  lemma WordRead(f: Bytes, pos: nat, word: Bytes, n: nat)
    requires (word == SET_WORD || word == DEL_WORD) && At(f, pos, word) && At(f, pos + 3, LengthText(n))
    ensures ReadToken(f, pos) == Some(Extracted(word, pos + 3))
  {
    StartsWithSpace(f, pos + 3, n);
    hide ReadToken, LengthText, At;
    TokenWritten(f, pos, word);
  }

  lemma SetHeaderWritten(f: Bytes, pos: nat, key: Bytes, value: Bytes)
    requires At(f, pos, HeaderText(Put(key, value)))
    ensures ReadHeader(f, pos) == if FieldOk(key) && FieldOk(value)
                                  then Some(SetHeader(|key|, |value|, pos + |HeaderText(Put(key, value))|)) else None
  {
    hide ReadToken, ReadSize, LengthText, At;
    var klen, vlen := LengthText(|key|), LengthText(|value|);
    SetHeaderCuts(f, pos, klen, vlen);
    WordRead(f, pos, SET_WORD, |key|);
    StartsWithSpace(f, pos + 3 + |klen|, |value|);
    SizeWritten(f, pos + 3, |key|);
    SizeWritten(f, pos + 3 + |klen|, |value|);
    SetHeaderOf(f, pos, |key|, |value|, pos + 3 + |klen|, pos + 3 + |klen| + |vlen|);
  }

  lemma SetHeaderOf(f: Bytes, pos: nat, k: nat, v: nat, p: nat, q: nat)
    requires pos + 3 <= p <= q < |f| && f[q] == SPACE && ReadToken(f, pos) == Some(Extracted(SET_WORD, pos + 3))
    requires ReadSize(f, pos + 3) == if k < SIZE_LIMIT then Some(Extracted(k, p)) else None
    requires ReadSize(f, p) == if v < SIZE_LIMIT then Some(Extracted(v, q)) else None
    ensures ReadHeader(f, pos) == if 0 < k <= MAX_FIELD && 0 < v <= MAX_FIELD then Some(SetHeader(k, v, q + 1)) else None
  {
    hide ReadToken, ReadSize;
  }

  lemma DelHeaderWritten(f: Bytes, pos: nat, key: Bytes)
    requires At(f, pos, HeaderText(Remove(key)))
    ensures ReadHeader(f, pos) == if FieldOk(key) then Some(DelHeader(|key|, pos + |HeaderText(Remove(key))|)) else None
  {
    hide ReadToken, ReadSize, LengthText, At;
    var klen := LengthText(|key|);
    DelHeaderCuts(f, pos, klen);
    WordRead(f, pos, DEL_WORD, |key|);
    SizeWritten(f, pos + 3, |key|);
    DelHeaderOf(f, pos, |key|, pos + 3 + |klen|);
  }

  lemma DelHeaderOf(f: Bytes, pos: nat, k: nat, q: nat)
    requires pos + 3 <= q < |f| && f[q] == SPACE && ReadToken(f, pos) == Some(Extracted(DEL_WORD, pos + 3))
    requires ReadSize(f, pos + 3) == if k < SIZE_LIMIT then Some(Extracted(k, q)) else None
    ensures ReadHeader(f, pos) == if 0 < k <= MAX_FIELD then Some(DelHeader(k, q + 1)) else None
  {
    hide ReadToken, ReadSize;
  }

  lemma StartsWithSpace(f: Bytes, pos: nat, n: nat)
    requires At(f, pos, LengthText(n))
    ensures pos < |f| && f[pos] == SPACE
  {
    AtConcat(f, pos, [SPACE], Numeral(n));
    SingleAt(f, pos, SPACE);
  }

  lemma SetBodyAt(f: Bytes, body: nat, key: Bytes, value: Bytes)
    requires At(f, body, key + (value + [NEWLINE]))
    ensures var k := body + |key|; var e := k + |value|;
            e < |f| && f[body..k] == key && f[k..e] == value && f[e] == NEWLINE
  {
    AtConcat(f, body, key, value + [NEWLINE]);
    AtConcat(f, body + |key|, value, [NEWLINE]);
    SingleAt(f, body + |key| + |value|, NEWLINE);
  }

  lemma EncodeParts(op: Mutation)
    ensures Encode(op) == HeaderText(op) + if op.Put? then op.key + (op.value + [NEWLINE]) else op.key + [NEWLINE]
    ensures |Encode(op)| == |HeaderText(op)| + |op.key| + (if op.Put? then |op.value| else 0) + 1
  {
    hide HeaderText;
  }

  lemma SetWritten(f: Bytes, pos: nat, key: Bytes, value: Bytes)
    requires FieldOk(key) && FieldOk(value) && At(f, pos, Encode(Put(key, value)))
    ensures WalRead(f, pos) == Some(Extracted(Put(key, value), pos + |Encode(Put(key, value))|))
  {
    hide ReadHeader, HeaderText, At, WalRead, Encode, FieldOk;
    var op := Put(key, value);
    EncodeParts(op);
    AtConcat(f, pos, HeaderText(op), key + (value + [NEWLINE]));
    SetHeaderWritten(f, pos, key, value);
    SetBodyAt(f, pos + |HeaderText(op)|, key, value);
    SetBodyRead(f, pos, key, value, pos + |HeaderText(op)|);
  }

  lemma SetBodyRead(f: Bytes, pos: nat, key: Bytes, value: Bytes, body: nat)
    requires pos <= |f| && FieldOk(key) && FieldOk(value) && ReadHeader(f, pos) == Some(SetHeader(|key|, |value|, body))
    requires var k := body + |key|; var e := k + |value|;
             e < |f| && f[body..k] == key && f[k..e] == value && f[e] == NEWLINE
    ensures WalRead(f, pos) == Some(Extracted(Put(key, value), body + |key| + |value| + 1))
  {
    hide ReadHeader;
  }

  lemma DelBodyAt(f: Bytes, body: nat, key: Bytes)
    requires At(f, body, key + [NEWLINE])
    ensures var e := body + |key|; e < |f| && f[body..e] == key && f[e] == NEWLINE
  {
    AtConcat(f, body, key, [NEWLINE]);
    SingleAt(f, body + |key|, NEWLINE);
  }

  lemma DelBodyRead(f: Bytes, pos: nat, key: Bytes, body: nat)
    requires pos <= |f| && FieldOk(key) && ReadHeader(f, pos) == Some(DelHeader(|key|, body))
    requires var e := body + |key|; e < |f| && f[body..e] == key && f[e] == NEWLINE
    ensures WalRead(f, pos) == Some(Extracted(Remove(key), body + |key| + 1))
  {
    hide ReadHeader;
  }

  lemma DelWritten(f: Bytes, pos: nat, key: Bytes)
    requires FieldOk(key) && At(f, pos, Encode(Remove(key)))
    ensures WalRead(f, pos) == Some(Extracted(Remove(key), pos + |Encode(Remove(key))|))
  {
    hide ReadHeader, HeaderText, At, WalRead, Encode, FieldOk;
    var op := Remove(key);
    EncodeParts(op);
    var body := pos + |HeaderText(op)|;
    AtConcat(f, pos, HeaderText(op), key + [NEWLINE]);
    DelHeaderWritten(f, pos, key);
    DelBodyAt(f, body, key);
    DelBodyRead(f, pos, key, body);
  }

  /** The record of a storable mutation reads back as that mutation, wherever it stands. */
  lemma WalReadWritten(f: Bytes, pos: nat, op: Mutation)
    requires Storable(op) && At(f, pos, Encode(op))
    ensures WalRead(f, pos) == Some(Extracted(op, pos + |Encode(op)|))
  {
    hide WalRead, Encode;
    match op
    case Put(k, v) => SetWritten(f, pos, k, v);
    case Remove(k) => DelWritten(f, pos, k);
  }

  /** A record with an empty or over-long field does not read back as anything. */
  lemma UnstorableRejected(f: Bytes, pos: nat, op: Mutation)
    requires !Storable(op) && At(f, pos, Encode(op))
    ensures WalRead(f, pos).None?
  {
    hide At, HeaderText, ReadHeader, Encode;
    EncodeParts(op);
    match op
    case Put(k, v) =>
      AtConcat(f, pos, HeaderText(op), k + (v + [NEWLINE]));
      SetHeaderWritten(f, pos, k, v);
    case Remove(k) =>
      AtConcat(f, pos, HeaderText(op), k + [NEWLINE]);
      DelHeaderWritten(f, pos, k);
  }

  /** No strict prefix of a record parses as a record: were one accepted, the same record
      would be accepted in the whole text and end too early. */
  lemma TornRecordRejected(pre: Bytes, op: Mutation, m: nat)
    requires Storable(op) && m < |Encode(op)|
    ensures WalRead(pre + Encode(op)[..m], |pre|).None?
  {
    var g, f := pre + Encode(op)[..m], pre + Encode(op);
    assert g <= f;
    assert f[|pre|..] == Encode(op);
    WalReadWritten(f, |pre|, op);
    WalReadStable(g, f, |pre|);
  }
}
