/** The log is opened for appending right after whatever it ends with, torn record included.
    This module shows what that costs: exactly the runs that open it at a record boundary keep
    their next write. */
module TornTail {
  import opened ByteStrings
  import opened KeyValue
  import opened Streams
  import opened Records
  import opened Recovery

  predicate HeaderByte(c: byte) {
    IsSpace(c) || IsDigit(c) || c == PLUS || c == MINUS
  }

  lemma SizeBytes(f: Bytes, pos: nat)
    requires pos <= |f| && ReadSize(f, pos).Some?
    ensures forall i :: pos <= i < ReadSize(f, pos).value.next ==> HeaderByte(f[i])
  {
    hide Value;
  }

  lemma TokenBytes(f: Bytes, pos: nat)
    requires pos < |f| && !IsSpace(f[pos]) && ReadToken(f, pos).Some?
    ensures var t := ReadToken(f, pos).value; t.next == pos + |t.item| && At(f, pos, t.item)
  {
    SpanUnique(Blank, f, pos, pos);
  }

  predicate Capital(c: byte) {
    c == SET_WORD[0] || c == DEL_WORD[0]
  }

  lemma WordBytes(f: Bytes, pos: nat, word: Bytes)
    requires At(f, pos, word) && (word == SET_WORD || word == DEL_WORD)
    ensures forall i :: pos < i < pos + 3 ==> !Capital(f[i])
  {
    assert forall i :: pos <= i < pos + 3 ==> f[i] == word[i - pos];
  }

  /** Past its first byte an accepted header contains no `S` and no `D`. */
  lemma HeaderShape(f: Bytes, pos: nat)
    requires pos < |f| && !IsSpace(f[pos]) && ReadHeader(f, pos).Some?
    ensures forall i :: pos < i < ReadHeader(f, pos).value.body ==> !Capital(f[i])
  {
    hide ReadToken, ReadSize, At;
    TokenBytes(f, pos);
    var word := ReadToken(f, pos).value;
    WordBytes(f, pos, word.item);
    SizeBytes(f, word.next);
    var klen := ReadSize(f, word.next).value;
    if word.item == SET_WORD {
      SizeBytes(f, klen.next);
    }
  }

  lemma HeaderTextBytes(op: Mutation)
    ensures forall i :: 0 <= i < |HeaderText(op)| ==> HeaderText(op)[i] != NEWLINE
    ensures Capital(HeaderText(op)[0])
  {
    hide Numeral;
    var n := LengthText(|op.key|);
    assert forall i :: 0 <= i < |n| ==> n[i] != NEWLINE;
    if op.Put? {
      var m := LengthText(|op.value|);
      assert forall i :: 0 <= i < |m| ==> m[i] != NEWLINE;
    }
  }

  predicate OneLine(op: Mutation) {
    NewlineFree(op.key) && (op.Put? ==> NewlineFree(op.value))
  }

  lemma OnlyLastNewline(op: Mutation, i: nat)
    requires OneLine(op) && i < |Encode(op)| && Encode(op)[i] == NEWLINE
    ensures i == |Encode(op)| - 1
  {
    hide HeaderText;
    HeaderTextBytes(op);
  }

  lemma ReadEndsInNewline(f: Bytes, pos: nat)
    requires pos <= |f| && WalRead(f, pos).Some?
    ensures var r := WalRead(f, pos).value;
            && f[r.next - 1] == NEWLINE
            && ReadHeader(f, pos).Some?
            && ReadHeader(f, pos).value.body + |BodyText(r.item)| == r.next
  {
    hide ReadHeader;
  }

  lemma EncodeBytes(op: Mutation)
    ensures Capital(Encode(op)[0]) && |Encode(op)| == |HeaderText(op)| + |BodyText(op)|
  {
    HeaderTextBytes(op);
    hide HeaderText;
  }

  /** A record that starts in a torn tail and is accepted after all runs to the very end of the
      record appended behind it. */
  lemma ReadsToTheEnd(f: Bytes, torn: Mutation, m: nat, op: Mutation)
    requires Storable(torn) && OneLine(op) && 0 < m < |Encode(torn)|
    ensures var g := f + Encode(torn)[..m] + Encode(op);
            WalRead(g, |f|).Some? ==> WalRead(g, |f|).value.next == |g|
  {
    hide WalRead, ReadHeader, Encode, HeaderText, BodyText;
    var t, e := Encode(torn)[..m], Encode(op);
    var g := f + t + e;
    if WalRead(g, |f|).Some? {
      var next := WalRead(g, |f|).value.next;
      ReadEndsInNewline(g, |f|);
      TornRecordRejected(f, torn, m);
      WalReadStable(f + t, g, |f|);
      assert g[next - 1] == e[next - 1 - |f| - m];
      OnlyLastNewline(op, next - 1 - |f| - m);
    }
  }

  /** Its header stops before the appended record, so its fields take in all of that record
      and cannot be the appended mutation. */
  lemma NotReadAsWritten(f: Bytes, torn: Mutation, m: nat, op: Mutation)
    requires Storable(torn) && OneLine(op) && 0 < m < |Encode(torn)|
    ensures var g := f + Encode(torn)[..m] + Encode(op);
            WalRead(g, |f|).Some? ==> WalRead(g, |f|).value.item != op
  {
    EncodeBytes(op);
    EncodeBytes(torn);
    hide WalRead, ReadHeader, Encode, HeaderText, BodyText;
    var t, e := Encode(torn)[..m], Encode(op);
    var g := f + t + e;
    assert g[|f|] == t[0] && g[|f| + m] == e[0];
    ReadsToTheEnd(f, torn, m, op);
    if WalRead(g, |f|).Some? {
      ReadEndsInNewline(g, |f|);
      HeaderShape(g, |f|);
    }
  }

  /** A write appended to a log that was opened behind `m` bytes of a torn record is replayed
      as written if and only if there was no torn record: `m == 0`. */
  lemma NextWriteSurvives(f: Bytes, torn: Mutation, m: nat, op: Mutation)
    requires Clean(f) && Storable(torn) && Storable(op) && OneLine(op) && m < |Encode(torn)|
    ensures History(f + Encode(torn)[..m] + Encode(op)) == History(f) + [op] <==> m == 0
  {
    hide WalRead, Encode, Clean;
    var t := Encode(torn)[..m];
    var g := f + t + Encode(op);
    if m == 0 {
      assert f + t == f;
      AppendWhole(f, op);
    } else {
      assert f <= g;
      CleanExtends(f, g);
      NotReadAsWritten(f, torn, m, op);
      var more := Scan(g, |f|);
      assert more == (History(f) + more)[|History(f)|..];
      assert [op] == (History(f) + [op])[|History(f)|..];
      assert more != [] ==> more[0] != op;
      assert [op][0] == op;
    }
  }

  lemma CleanExtends(f: Bytes, g: Bytes)
    requires Clean(f) && f <= g
    ensures History(g) == History(f) + Scan(g, |f|)
  {
    ScanExtend(f, g, 0);
  }

  /** And the loss is not confined to the new write. When the torn record breaks off behind its
      key and promises a value `w` of just the right length, the whole next record is replayed as
      the value of that key: not the record that was appended, and not the one that was torn
      either, unless its value happened to be that very text. */
  lemma TornKeySwallowsNextWrite(f: Bytes, key: Bytes, w: Bytes, op: Mutation)
    requires Clean(f) && FieldOk(key) && FieldOk(w) && |w| == |Encode(op)| - 1
    ensures var text := Encode(op)[..|w|];
            var t := HeaderText(Put(key, w)) + key;
            && t < Encode(Put(key, w))
            && History(f + t + Encode(op)) == History(f) + [Put(key, text)]
            && Put(key, text) != op
            && (Put(key, text) == Put(key, w) <==> w == text)
  {
    LongerThanValue(op);
    HeaderOfLengths(key, w, Encode(op)[..|w|]);
    hide Encode, HeaderText, Clean, History;
    TextIsValue(f, key, op);
    CutBehindKey(key, w);
  }

  lemma TextIsValue(f: Bytes, key: Bytes, op: Mutation)
    requires Clean(f) && FieldOk(key) && FieldOk(Encode(op)[..|Encode(op)| - 1])
    ensures var read := Put(key, Encode(op)[..|Encode(op)| - 1]);
            History(f + (HeaderText(read) + key) + Encode(op)) == History(f) + [read]
  {
    EndsInNewline(op);
    var e := Encode(op);
    var v := e[..|e| - 1];
    hide Encode, HeaderText, Clean, History;
    assert e == v + [NEWLINE];
    Reassociate(f, HeaderText(Put(key, v)), key, e);
    EncodePut(key, v);
    AppendWhole(f, Put(key, v));
  }

  lemma CutBehindKey(key: Bytes, w: Bytes)
    ensures HeaderText(Put(key, w)) + key < Encode(Put(key, w))
  {
    hide HeaderText;
    var h, rest := HeaderText(Put(key, w)), w + [NEWLINE];
    assert h + (key + rest) == (h + key) + rest;
  }

  lemma LongerThanValue(op: Mutation)
    ensures op.Put? ==> |op.value| < |Encode(op)| - 1
  {
    hide HeaderText;
  }

  lemma HeaderOfLengths(key: Bytes, v: Bytes, w: Bytes)
    requires |v| == |w|
    ensures HeaderText(Put(key, v)) == HeaderText(Put(key, w))
  {
  }

  lemma EncodePut(key: Bytes, v: Bytes)
    ensures Encode(Put(key, v)) == HeaderText(Put(key, v)) + (key + (v + [NEWLINE]))
  {
  }

  lemma EndsInNewline(op: Mutation)
    ensures Encode(op)[|Encode(op)| - 1] == NEWLINE
  {
    hide HeaderText;
  }

  lemma Reassociate(f: Bytes, h: Bytes, k: Bytes, e: Bytes)
    ensures f + (h + k) + e == f + (h + (k + e))
    ensures e != [] ==> h + k < h + (k + e)
  {
    assert h + (k + e) == (h + k) + e;
  }
}
