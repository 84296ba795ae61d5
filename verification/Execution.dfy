/** Executing one line against a store. */
module Execution {
  import opened ByteStrings
  import opened KeyValue
  import opened Command
  import L = LruCache
  import S = Storage

  datatype Reply =
    | Silence
    | Okay
    | Value(value: Bytes)
    | Nil
    | Integer(n: nat)
    | Pong
    | WrongArguments(name: Name)
    | UnknownVerb(verb: Bytes)
    | NotPersisted
    | ReadOnly
    | NotAReplica
    | AlreadySyncing
    | NotInRaft
    | Standalone

  function NameText(n: Name): string {
    match n
    case SetName => "set"
    case GetName => "get"
    case DelName => "del"
    case ExistsName => "exists"
    case PingName => "ping"
    case QuitName => "quit"
  }

  /** The reply line, without the newline that ends it. */
  function Render(r: Reply): Bytes {
    match r
    case Silence => []
    case Okay => Text("OK")
    case Value(v) => v
    case Nil => Text("(nil)")
    case Integer(n) => Text("(integer) ") + Numeral(n)
    case Pong => Text("PONG")
    case WrongArguments(n) => Text("ERR wrong number of arguments for '") + (Text(NameText(n)) + Text("' command"))
    case UnknownVerb(v) => Text("ERR unknown command '") + (v + Text("'"))
    case NotPersisted => Text("ERR write failed: data not persisted")
    case ReadOnly => Text("ERR READONLY this node ") + Text("is a read-only replica")
    case NotAReplica => Text("ERR __REPLSYNC__ is only ") + Text("valid on a read-only replica")
    case AlreadySyncing => Text("ERR replication sync already ") + Text("in progress on this connection")
    case NotInRaft => Text("ERR this node is ") + Text("not part of a Raft cluster")
    case Standalone => Text("standalone (not a Raft cluster)")
  }

  predicate IsWrite(cmd: Command) {
    cmd.SetCommand? || cmd.DelCommand? || cmd == Malformed(SetName) || cmd == Malformed(DelName)
  }

  datatype Executed = Executed(cache: L.Cache, reply: Reply, close: bool, link: bool)

  function Flag(b: bool): nat {
    if b then 1 else 0
  }

  /** The commands that look at or change the data. */
  function RunData(cmd: Command, c: L.Cache, link: bool): Executed {
    match cmd
    case SetCommand(k, v) =>
      var r := L.Set(c, k, v);
      Executed(r.cache, if r.done then Okay else NotPersisted, false, link)
    case GetCommand(k) =>
      var found := Find(L.View(c), k);
      Executed(L.Get(c, k), if found.Some? then Value(found.value) else Nil, false, link)
    case DelCommand(k) =>
      var r := L.Del(c, k);
      Executed(r.cache, if r.done then Integer(Flag(L.Has(c, k))) else NotPersisted, false, link)
    case ExistsCommand(k) => Executed(c, Integer(Flag(L.Has(c, k))), false, link)
    case PingCommand => Executed(c, Pong, false, link)
    case QuitCommand => Executed(c, Okay, true, link)
    case Malformed(n) => Executed(c, WrongArguments(n), false, link)
    case Unknown(v) => Executed(c, UnknownVerb(v), false, link)
    case _ => Executed(c, Silence, false, link)
  }

  /** A command on a node outside any Raft cluster. `link` says that the connection is the
      leader's replica link. */
  function Run(cmd: Command, c: L.Cache, follower: bool, link: bool): Executed {
    if cmd == SyncCommand then
      if !follower then Executed(c, NotAReplica, false, link)
      else if link then Executed(c, AlreadySyncing, false, link)
      else Executed(c.(items := []), Okay, false, true)
    else if cmd == RaftCommand then Executed(c, NotInRaft, false, link)
    else if cmd == RoleCommand then Executed(c, Standalone, false, link)
    else if follower && !link && IsWrite(cmd) then Executed(c, ReadOnly, false, link)
    else RunData(cmd, c, link)
  }

  /** Trim, cut, upper-case the verb, then dispatch in the order of the checks. */
  method ExecuteLine(line: Bytes, store: S.Storage, follower: bool, link: bool)
    returns (reply: Reply, close: bool, link': bool)
    requires store.Valid()
    modifies store, store.items, store.wal
    ensures store.Valid()
    ensures Executed(store.State(), reply, close, link') == Run(Parse(line), old(store.State()), follower, link)
  {
    close, link' := false, link;
    var s := Trim(line);
    if s == [] {
      return Silence, false, link;
    }
    var word, pos := NextToken(s, 0);
    var verb := ToUpper(word);
    var key, next := NextToken(s, pos);
    var rest := s[next..];
    assert Words(word, key, rest) == Cut(s);
    ghost var cmd := Interpret(verb, key, rest);
    assert cmd == Parse(line);
    reply, close, link' := Dispatch(verb, key, rest, store, follower, link);
  }

  method Dispatch(verb: Bytes, key: Bytes, rest: Bytes, store: S.Storage, follower: bool, link: bool)
    returns (reply: Reply, close: bool, link': bool)
    requires store.Valid()
    modifies store, store.items, store.wal
    ensures store.Valid()
    ensures Executed(store.State(), reply, close, link') ==
              Run(Interpret(verb, key, rest), old(store.State()), follower, link)
  {
    hide SYNC_VERB, VOTE_VERB, APPEND_VERB, ROLE_VERB, SET_VERB, GET_VERB, DEL_VERB, DELETE_VERB,
         EXISTS_VERB, PING_VERB, QUIT_VERB, EXIT_VERB, RunData, S.Bijection;
    UpperWords();
    close, link' := false, link;
    if verb == SYNC_VERB {
      if !follower {
        return NotAReplica, false, link;
      }
      if link {
        return AlreadySyncing, false, link;
      }
      store.Clear();
      return Okay, false, true;
    }
    if verb == VOTE_VERB || verb == APPEND_VERB {
      return NotInRaft, false, link;
    }
    if verb == ROLE_VERB {
      return Standalone, false, link;
    }
    if follower && !link && (verb == SET_VERB || verb == DEL_VERB || verb == DELETE_VERB) {
      return ReadOnly, false, link;
    }
    if verb == SET_VERB || verb == GET_VERB {
      reply := DispatchSetGet(verb, key, rest, store, link);
    } else if verb == DEL_VERB || verb == DELETE_VERB || verb == EXISTS_VERB {
      reply := DispatchDelExists(verb, key, rest, store, link);
    } else {
      reply, close := DispatchRest(verb, key, rest, store.State(), link);
    }
  }

  method DispatchSetGet(verb: Bytes, key: Bytes, rest: Bytes, store: S.Storage, ghost link: bool) returns (reply: Reply)
    requires store.Valid() && (verb == SET_VERB || verb == GET_VERB)
    requires verb != SYNC_VERB && verb != VOTE_VERB && verb != APPEND_VERB && verb != ROLE_VERB
    modifies store, store.items, store.wal
    ensures store.Valid()
    ensures Executed(store.State(), reply, false, link) == RunData(Interpret(verb, key, rest), old(store.State()), link)
  {
    hide SYNC_VERB, VOTE_VERB, APPEND_VERB, ROLE_VERB, SET_VERB, GET_VERB, DEL_VERB, DELETE_VERB,
         EXISTS_VERB, PING_VERB, QUIT_VERB, EXIT_VERB, L.Set, L.Get, L.View, S.Bijection;
    if verb == SET_VERB {
      if key == [] || rest == [] {
        return WrongArguments(SetName);
      }
      var done := store.Set(key, rest);
      return if done then Okay else NotPersisted;
    }
    if key == [] || rest != [] {
      return WrongArguments(GetName);
    }
    var found := store.Get(key);
    return if found.Some? then Value(found.value) else Nil;
  }

  method DispatchDelExists(verb: Bytes, key: Bytes, rest: Bytes, store: S.Storage, ghost link: bool) returns (reply: Reply)
    requires store.Valid() && verb != SET_VERB && verb != GET_VERB
    requires verb == DEL_VERB || verb == DELETE_VERB || verb == EXISTS_VERB
    requires verb != SYNC_VERB && verb != VOTE_VERB && verb != APPEND_VERB && verb != ROLE_VERB
    modifies store, store.items, store.wal
    ensures store.Valid()
    ensures Executed(store.State(), reply, false, link) == RunData(Interpret(verb, key, rest), old(store.State()), link)
  {
    hide SYNC_VERB, VOTE_VERB, APPEND_VERB, ROLE_VERB, SET_VERB, GET_VERB, DEL_VERB, DELETE_VERB,
         EXISTS_VERB, PING_VERB, QUIT_VERB, EXIT_VERB, L.Del, L.Has, S.Bijection;
    if verb == DEL_VERB || verb == DELETE_VERB {
      if key == [] || rest != [] {
        return WrongArguments(DelName);
      }
      var removed, durable := store.Del(key);
      return if durable then Integer(removed) else NotPersisted;
    }
    if key == [] || rest != [] {
      return WrongArguments(ExistsName);
    }
    var found := store.Exists(key);
    return Integer(if found then 1 else 0);
  }

  method DispatchRest(verb: Bytes, key: Bytes, rest: Bytes, ghost c: L.Cache, ghost link: bool)
    returns (reply: Reply, close: bool)
    requires verb != SET_VERB && verb != GET_VERB
    requires verb != DEL_VERB && verb != DELETE_VERB && verb != EXISTS_VERB
    requires verb != SYNC_VERB && verb != VOTE_VERB && verb != APPEND_VERB && verb != ROLE_VERB
    ensures Executed(c, reply, close, link) == RunData(Interpret(verb, key, rest), c, link)
  {
    hide SYNC_VERB, VOTE_VERB, APPEND_VERB, ROLE_VERB, SET_VERB, GET_VERB, DEL_VERB, DELETE_VERB,
         EXISTS_VERB, PING_VERB, QUIT_VERB, EXIT_VERB;
    close := false;
    if verb == PING_VERB {
      return if key != [] || rest != [] then WrongArguments(PingName) else Pong, false;
    }
    if verb == QUIT_VERB || verb == EXIT_VERB {
      if key != [] || rest != [] {
        return WrongArguments(QuitName), false;
      }
      return Okay, true;
    }
    reply := UnknownVerb(verb);
  }

  /* ---------------- the same on the abstract store ---------------- */

  function Effect(cmd: Command, m: Contents): Contents {
    match cmd
    case SetCommand(k, v) => m[k := v]
    case DelCommand(k) => m - {k}
    case _ => m
  }

  /** What an ordinary node answers. */
  function Answer(cmd: Command, m: Contents): Reply {
    match cmd
    case Nothing => Silence
    case SyncCommand => NotAReplica
    case RaftCommand => NotInRaft
    case RoleCommand => Standalone
    case SetCommand(_, _) => Okay
    case GetCommand(k) => if k in m then Value(m[k]) else Nil
    case DelCommand(k) => Integer(Flag(k in m))
    case ExistsCommand(k) => Integer(Flag(k in m))
    case PingCommand => Pong
    case QuitCommand => Okay
    case Malformed(n) => WrongArguments(n)
    case Unknown(v) => UnknownVerb(v)
  }

  /** No capacity and no log: nothing is evicted and nothing is refused. */
  predicate Plain(c: L.Cache) {
    c.capacity == 0 && c.log.Detached? && DistinctKeys(c.items)
  }

  lemma PlainSet(c: L.Cache, k: Bytes, v: Bytes)
    requires Plain(c)
    ensures var r := L.Set(c, k, v); r.done && Plain(r.cache) && L.View(r.cache) == L.View(c)[k := v]
  {
    var p := L.Position(c.items, k);
    if p < |c.items| {
      L.TouchContents(c.items, p, v);
    } else {
      L.FrontContents(c.items, k, v);
    }
  }

  lemma PlainGet(c: L.Cache, k: Bytes)
    requires Plain(c)
    ensures Plain(L.Get(c, k)) && L.View(L.Get(c, k)) == L.View(c)
  {
    hide L.Get, L.View;
    L.GetKeepsView(c, k);
  }

  lemma PlainDel(c: L.Cache, k: Bytes)
    requires Plain(c)
    ensures var r := L.Del(c, k); r.done && Plain(r.cache) && L.View(r.cache) == L.View(c) - {k}
  {
    L.HasIsContents(c, k);
    var p := L.Position(c.items, k);
    if p < |c.items| {
      AsContentsDrop(c.items, p);
      DropDistinct(c.items, p);
    } else {
      assert L.View(c) - {k} == L.View(c);
    }
  }

  /** An unbounded engine without a log is the plain map, for ordinary clients of an ordinary
      node and for the leader's link into a follower. */
  lemma RunIsMap(cmd: Command, c: L.Cache, follower: bool, link: bool)
    requires Plain(c) && (!follower || link)
    ensures var x := Run(cmd, c, follower, link);
            && Plain(x.cache) && L.View(x.cache) == Effect(cmd, L.View(c)) && x.link == link
            && (!follower ==> x.reply == Answer(cmd, L.View(c)))
  {
    hide L.Set, L.Get, L.Del, L.View, L.Has, Plain;
    match cmd
    case SetCommand(k, v) => PlainSet(c, k, v);
    case GetCommand(k) => PlainGet(c, k);
    case DelCommand(k) => PlainDel(c, k); PlainHas(c, k);
    case ExistsCommand(k) => PlainHas(c, k);
    case _ =>
  }

  lemma PlainHas(c: L.Cache, k: Bytes)
    requires Plain(c)
    ensures L.Has(c, k) <==> k in L.View(c)
  {
    L.HasIsContents(c, k);
  }

  /** A follower changes nothing for an ordinary client, except by the handshake that makes the
      connection the leader's and empties the store. */
  lemma ReplicaIsReadOnly(cmd: Command, c: L.Cache)
    requires DistinctKeys(c.items)
    ensures var x := Run(cmd, c, true, false);
            if cmd.SyncCommand? then x.reply == Okay && x.link && L.View(x.cache) == map[]
            else !x.link && L.View(x.cache) == L.View(c) && x.cache.outbox == c.outbox && x.cache.log == c.log
  {
    assert AsContents([]) == map[];
    hide L.Get, L.Position, L.Set, L.Del, AsContents, DistinctKeys;
    if cmd.GetCommand? {
      L.GetKeepsView(c, cmd.key);
    }
  }
}
