/** Elections that can happen. Safety alone would hold of a cluster in which nobody is ever elected;
    here runs are built in which any member comes to lead and is known by all. */
module RaftElections {
  import opened RaftNode
  import opened RaftCluster

  ghost predicate Shape(cfg: Config, c: Cluster) {
    c.nodes.Keys == c.acts.Keys == cfg.members == cfg.peers.Keys
  }

  ghost function Do(cfg: Config, c: Cluster, step: Step): (d: Cluster)
    requires Shape(cfg, c) && Enabled(cfg, c, step)
    ensures Shape(cfg, d)
  {
    EffectMember(cfg, c, step);
    Commit(c, Effect(cfg, c, step))
  }

  lemma EffectMember(cfg: Config, c: Cluster, step: Step)
    requires Shape(cfg, c) && Enabled(cfg, c, step)
    ensures Effect(cfg, c, step).id in cfg.members
  {
  }

  /* ---------------- putting runs together ---------------- */

  lemma EmptyRun(cfg: Config, c: Cluster)
    requires Shape(cfg, c)
    ensures IsRun(cfg, c, []) && After(cfg, c, []) == c
  {
  }

  lemma MoreRun(cfg: Config, c: Cluster, step: Step, rest: seq<Step>)
    requires Shape(cfg, c) && Enabled(cfg, c, step) && IsRun(cfg, Do(cfg, c, step), rest)
    ensures IsRun(cfg, c, [step] + rest) && After(cfg, c, [step] + rest) == After(cfg, Do(cfg, c, step), rest)
  {
    EffectMember(cfg, c, step);
    assert ([step] + rest)[1..] == rest;
    hide Enabled, Effect;
  }

  lemma {:induction false} RunShape(cfg: Config, c: Cluster, steps: seq<Step>)
    requires Shape(cfg, c) && IsRun(cfg, c, steps)
    ensures Shape(cfg, After(cfg, c, steps))
    decreases steps
  {
    hide Enabled, Effect;
    if steps != [] {
      RunShape(cfg, Commit(c, Effect(cfg, c, steps[0])), steps[1..]);
    }
  }

  lemma {:induction false} RunConcat(cfg: Config, c: Cluster, a: seq<Step>, b: seq<Step>)
    requires Shape(cfg, c) && IsRun(cfg, c, a) && Shape(cfg, After(cfg, c, a)) && IsRun(cfg, After(cfg, c, a), b)
    ensures IsRun(cfg, c, a + b) && After(cfg, c, a + b) == After(cfg, After(cfg, c, a), b)
    decreases a
  {
    hide Enabled, Effect;
    if a == [] {
      assert a + b == b;
    } else {
      assert (a + b)[1..] == a[1..] + b && (a + b)[0] == a[0];
      RunConcat(cfg, Commit(c, Effect(cfg, c, a[0])), a[1..], b);
    }
  }

  lemma ThreeSteps(cfg: Config, c: Cluster, x: Step, y: Step, z: Step)
    requires Shape(cfg, c) && Enabled(cfg, c, x)
    requires var c1 := Do(cfg, c, x); Enabled(cfg, c1, y) && Enabled(cfg, Do(cfg, c1, y), z)
    ensures IsRun(cfg, c, [x, y, z])
    ensures After(cfg, c, [x, y, z]) == Do(cfg, Do(cfg, Do(cfg, c, x), y), z)
  {
    hide Enabled, Do, IsRun, After;
    var c1 := Do(cfg, c, x);
    var c2 := Do(cfg, c1, y);
    EmptyRun(cfg, Do(cfg, c2, z));
    MoreRun(cfg, c2, z, []);
    assert [z] + [] == [z] && [y] + [z] == [y, z] && [x] + [y, z] == [x, y, z];
    MoreRun(cfg, c1, y, [z]);
    MoreRun(cfg, c, x, [y, z]);
  }

  lemma TwoSteps(cfg: Config, c: Cluster, x: Step, y: Step)
    requires Shape(cfg, c) && Enabled(cfg, c, x) && Enabled(cfg, Do(cfg, c, x), y)
    ensures IsRun(cfg, c, [x, y]) && After(cfg, c, [x, y]) == Do(cfg, Do(cfg, c, x), y)
  {
    hide Enabled, Do, IsRun, After;
    var c1 := Do(cfg, c, x);
    EmptyRun(cfg, Do(cfg, c1, y));
    MoreRun(cfg, c1, y, []);
    assert [y] + [] == [y] && [x] + [y] == [x, y];
    MoreRun(cfg, c, x, [y]);
  }

  lemma OneStep(cfg: Config, c: Cluster, x: Step)
    requires Shape(cfg, c) && Enabled(cfg, c, x)
    ensures IsRun(cfg, c, [x]) && After(cfg, c, [x]) == Do(cfg, c, x)
  {
    hide Enabled, Do, IsRun, After;
    EmptyRun(cfg, Do(cfg, c, x));
    MoreRun(cfg, c, x, []);
    assert [x] + [] == [x];
  }

  /** How many peers are asked for their votes along the way. */
  function Asks(steps: seq<Step>): nat {
    if steps == [] then 0 else (if steps[0].Ask? then 1 else 0) + Asks(steps[1..])
  }

  lemma {:induction false} AsksConcat(a: seq<Step>, b: seq<Step>)
    ensures Asks(a + b) == Asks(a) + Asks(b)
    decreases a
  {
    if a == [] {
      assert a + b == b;
    } else {
      assert (a + b)[1..] == a[1..] + b;
      AsksConcat(a[1..], b);
    }
  }

  lemma AsksThree(x: Step, y: Step, z: Step)
    ensures Asks([x, y, z]) == (if x.Ask? then 1 else 0) + (if y.Ask? then 1 else 0) + (if z.Ask? then 1 else 0)
  {
    assert [x, y, z][1..] == [y, z] && [y, z][1..] == [z] && [z][1..] == [];
    assert Asks([y, z]) == (if y.Ask? then 1 else 0) + Asks([z]);
  }

  /* ---------------- a campaign ---------------- */

  ghost predicate TermsUpTo(cfg: Config, c: Cluster, term: int)
    requires Shape(cfg, c)
  {
    forall m :: m in cfg.members ==> c.nodes[m].term <= term
  }

  /** In its vote loop, with the votes of the first `i` peers and of itself; the others are still
      in older terms. */
  ghost predicate Campaigning(cfg: Config, c: Cluster, n: Id, term: int, i: nat) {
    && Shape(cfg, c) && WellFormed(cfg) && n in cfg.members
    && c.nodes[n] == State(Candidate, term, n, "") && c.acts[n] == Asking(term, i, i + 1, false)
    && TermsUpTo(cfg, c, term)
    && forall j :: i <= j < |cfg.peers[n]| ==> cfg.peers[n][j] in c.nodes && c.nodes[cfg.peers[n][j]].term < term
  }

  predicate Leads(s: State, n: Id, term: int) {
    s.role == Leader && s.term == term && s.leaderId == n
  }

  ghost predicate Won(cfg: Config, c: Cluster, n: Id, term: int) {
    && Shape(cfg, c) && WellFormed(cfg) && n in cfg.members
    && Leads(c.nodes[n], n, term) && c.acts[n] == Idle && Election(term, n) in c.elected
    && TermsUpTo(cfg, c, term)
  }

  /** A peer in an older term gives its vote. */
  lemma Granted(s: State, term: int, candidate: Id)
    requires s.term < term
    ensures OnRequestVote(s, term, candidate) == Answer(State(Follower, term, candidate, ""), Reply(term, true))
  {
  }

  lemma DoAsk(cfg: Config, c: Cluster, n: Id, term: int, i: nat)
    requires Shape(cfg, c) && n in cfg.members && i < |cfg.peers[n]| && c.acts[n] == Asking(term, i, i + 1, false)
    ensures Enabled(cfg, c, Ask(n))
    ensures var d := Do(cfg, c, Ask(n));
            && d.nodes == c.nodes && d.acts[n] == Asking(term, i, i + 1, true)
            && VoteRequest(n, cfg.peers[n][i], term) in d.sent
  {
  }

  lemma DoVote(cfg: Config, c: Cluster, n: Id, p: Id, term: int)
    requires Shape(cfg, c) && n in cfg.members && p in cfg.members && p != n
    requires VoteRequest(n, p, term) in c.sent && c.nodes[p].term < term
    ensures Enabled(cfg, c, Vote(VoteRequest(n, p, term)))
    ensures var d := Do(cfg, c, Vote(VoteRequest(n, p, term)));
            && d.nodes == c.nodes[p := State(Follower, term, n, "")] && d.acts[n] == c.acts[n]
            && VoteReply(p, n, term, Reply(term, true)) in d.sent
  {
    Granted(c.nodes[p], term, n);
    hide OnRequestVote;
  }

  lemma DoCount(cfg: Config, c: Cluster, n: Id, term: int, i: nat)
    requires Shape(cfg, c) && n in cfg.members && i < |cfg.peers[n]| && c.acts[n] == Asking(term, i, i + 1, true)
    requires c.nodes[n] == State(Candidate, term, n, "") && i + 2 <= Majority(|cfg.peers[n]|)
    requires VoteReply(cfg.peers[n][i], n, term, Reply(term, true)) in c.sent
    ensures var reply := VoteReply(cfg.peers[n][i], n, term, Reply(term, true));
            && Enabled(cfg, c, Count(n, reply))
            && var d := Do(cfg, c, Count(n, reply));
               if i + 2 == Majority(|cfg.peers[n]|)
               then d.nodes == c.nodes[n := State(Leader, term, n, n)] && d.acts[n] == Idle && Election(term, n) in d.elected
               else d.nodes == c.nodes && d.acts[n] == Asking(term, i + 1, i + 2, false)
  {
    hide Majority;
  }

  /** One peer asked, answering, counted. */
  lemma OneVote(cfg: Config, c: Cluster, n: Id, term: int, i: nat) returns (steps: seq<Step>)
    requires Campaigning(cfg, c, n, term, i) && i + 2 <= Majority(|cfg.peers[n]|) && i < |cfg.peers[n]|
    ensures IsRun(cfg, c, steps) && Asks(steps) == 1
    ensures var d := After(cfg, c, steps);
            if i + 2 == Majority(|cfg.peers[n]|) then Won(cfg, d, n, term) else Campaigning(cfg, d, n, term, i + 1)
  {
    hide WellFormed, Majority, Do, Enabled, IsRun, After, Asks;
    var p := cfg.peers[n][i];
    OtherPeers(cfg, n, i);
    var ask, reply := VoteRequest(n, p, term), VoteReply(p, n, term, Reply(term, true));
    DoAsk(cfg, c, n, term, i);
    var c1 := Do(cfg, c, Ask(n));
    DoVote(cfg, c1, n, p, term);
    var c2 := Do(cfg, c1, Vote(ask));
    DoCount(cfg, c2, n, term, i);
    steps := [Ask(n), Vote(ask), Count(n, reply)];
    ThreeSteps(cfg, c, Ask(n), Vote(ask), Count(n, reply));
    AsksThree(Ask(n), Vote(ask), Count(n, reply));
  }

  lemma OtherPeers(cfg: Config, n: Id, i: nat)
    requires WellFormed(cfg) && n in cfg.members && i < |cfg.peers[n]|
    ensures forall j :: 0 <= j < |cfg.peers[n]| ==> cfg.peers[n][j] in cfg.members && cfg.peers[n][j] != n
    ensures forall j :: 0 <= j < |cfg.peers[n]| && j != i ==> cfg.peers[n][j] != cfg.peers[n][i]
  {
    assert PeersOk(cfg.members, n, cfg.peers[n]);
    forall j | 0 <= j < |cfg.peers[n]|
      ensures cfg.peers[n][j] in cfg.members && cfg.peers[n][j] != n
    {
      PeerIsOther(cfg, n, j);
    }
  }

  lemma {:induction false} VoteLoop(cfg: Config, c: Cluster, n: Id, term: int, i: nat) returns (steps: seq<Step>)
    requires Campaigning(cfg, c, n, term, i) && i + 2 <= Majority(|cfg.peers[n]|) <= |cfg.peers[n]| + 1
    ensures IsRun(cfg, c, steps) && Asks(steps) == Majority(|cfg.peers[n]|) - 1 - i
    ensures Won(cfg, After(cfg, c, steps), n, term)
    decreases |cfg.peers[n]| - i
  {
    steps := OneVote(cfg, c, n, term, i);
    if i + 2 < Majority(|cfg.peers[n]|) {
      hide IsRun, After, Campaigning, Won, Majority, Asks;
      var d := After(cfg, c, steps);
      RunShape(cfg, c, steps);
      var rest := VoteLoop(cfg, d, n, term, i + 1);
      RunConcat(cfg, c, steps, rest);
      AsksConcat(steps, rest);
      steps := steps + rest;
    }
  }

  lemma DoBid(cfg: Config, c: Cluster, n: Id)
    requires Shape(cfg, c) && n in cfg.members && c.acts[n] == Idle && c.nodes[n].role != Leader
    ensures Enabled(cfg, c, Expire(n)) && Enabled(cfg, Do(cfg, c, Expire(n)), Begin(n))
    ensures var d := Do(cfg, Do(cfg, c, Expire(n)), Begin(n)); var term := c.nodes[n].term + 1;
            d.nodes == c.nodes[n := State(Candidate, term, n, "")] && d.acts[n] == Asking(term, 0, 1, false)
  {
  }

  /** A member that is not behind anybody wins the next term, by asking no more peers than a
      majority needs besides itself. */
  lemma Campaign(cfg: Config, c: Cluster, n: Id) returns (steps: seq<Step>)
    requires Shape(cfg, c) && WellFormed(cfg) && n in cfg.members && |cfg.members| >= 2
    requires c.acts[n] == Idle && c.nodes[n].role != Leader && TermsUpTo(cfg, c, c.nodes[n].term)
    ensures IsRun(cfg, c, steps) && Asks(steps) == |cfg.members| / 2
    ensures Won(cfg, After(cfg, c, steps), n, c.nodes[n].term + 1)
  {
    hide WellFormed, Majority, Do, Enabled, IsRun, After, Asks, Won;
    var term := c.nodes[n].term + 1;
    PeerCount(cfg, n);
    OtherPeers(cfg, n, 0);
    DoBid(cfg, c, n);
    var d := Do(cfg, Do(cfg, c, Expire(n)), Begin(n));
    assert Campaigning(cfg, d, n, term, 0);
    TwoSteps(cfg, c, Expire(n), Begin(n));
    var rest := VoteLoop(cfg, d, n, term, 0);
    RunConcat(cfg, c, [Expire(n), Begin(n)], rest);
    AsksConcat([Expire(n), Begin(n)], rest);
    NoAsks(n);
    steps := [Expire(n), Begin(n)] + rest;
  }

  lemma NoAsks(n: Id)
    ensures Asks([Expire(n), Begin(n)]) == 0
  {
    assert [Expire(n), Begin(n)][1..] == [Begin(n)] && [Begin(n)][1..] == [];
    assert Asks([Begin(n)]) == Asks([]);
  }

  /* ---------------- making itself known ---------------- */

  /** In its heartbeat loop, known by the first `i` peers. */
  ghost predicate Announcing(cfg: Config, c: Cluster, n: Id, term: int, i: nat) {
    && Shape(cfg, c) && WellFormed(cfg) && n in cfg.members && i <= |cfg.peers[n]|
    && Leads(c.nodes[n], n, term) && c.acts[n] == Beating(term, i, false) && Election(term, n) in c.elected
    && TermsUpTo(cfg, c, term)
    && forall j :: 0 <= j < i ==> cfg.peers[n][j] in c.nodes && Follows(c.nodes[cfg.peers[n][j]], n, term)
  }

  predicate Follows(s: State, leader: Id, term: int) {
    s.role == Follower && s.term == term && s.leaderId == leader
  }

  /** One member leads the term of all, and all others follow it. */
  ghost predicate Settled(cfg: Config, c: Cluster, n: Id, term: int) {
    && Shape(cfg, c) && n in cfg.members
    && Leads(c.nodes[n], n, term) && Election(term, n) in c.elected
    && forall m :: m in cfg.members && m != n ==> Follows(c.nodes[m], n, term)
  }

  lemma DoBeat(cfg: Config, c: Cluster, n: Id, term: int, i: nat)
    requires Shape(cfg, c) && n in cfg.members && i < |cfg.peers[n]| && c.acts[n] == Beating(term, i, false)
    ensures Enabled(cfg, c, Beat(n))
    ensures var d := Do(cfg, c, Beat(n));
            && d.nodes == c.nodes && d.acts[n] == Beating(term, i, true) && d.elected == c.elected
            && Heartbeat(n, cfg.peers[n][i], term) in d.sent
  {
  }

  lemma DoObey(cfg: Config, c: Cluster, n: Id, p: Id, term: int)
    requires Shape(cfg, c) && n in cfg.members && p in cfg.members && p != n
    requires Heartbeat(n, p, term) in c.sent && c.nodes[p].term <= term
    ensures Enabled(cfg, c, Obey(Heartbeat(n, p, term)))
    ensures var d := Do(cfg, c, Obey(Heartbeat(n, p, term)));
            && d.nodes == c.nodes[p := d.nodes[p]] && Follows(d.nodes[p], n, term)
            && d.acts[n] == c.acts[n] && d.elected == c.elected
            && HeartbeatReply(p, n, term, Reply(term, true)) in d.sent
  {
  }

  lemma DoNote(cfg: Config, c: Cluster, n: Id, term: int, i: nat)
    requires Shape(cfg, c) && n in cfg.members && i < |cfg.peers[n]| && c.acts[n] == Beating(term, i, true)
    requires Leads(c.nodes[n], n, term) && HeartbeatReply(cfg.peers[n][i], n, term, Reply(term, true)) in c.sent
    ensures var reply := HeartbeatReply(cfg.peers[n][i], n, term, Reply(term, true));
            && Enabled(cfg, c, Note(n, reply))
            && var d := Do(cfg, c, Note(n, reply));
               d.nodes == c.nodes && d.acts[n] == Beating(term, i + 1, false) && d.elected == c.elected
  {
  }

  lemma OneBeat(cfg: Config, c: Cluster, n: Id, term: int, i: nat) returns (steps: seq<Step>)
    requires Announcing(cfg, c, n, term, i) && i < |cfg.peers[n]|
    ensures IsRun(cfg, c, steps) && Announcing(cfg, After(cfg, c, steps), n, term, i + 1)
  {
    hide WellFormed, Do, Enabled, IsRun, After, Follows;
    var p := cfg.peers[n][i];
    OtherPeers(cfg, n, i);
    var beat, reply := Heartbeat(n, p, term), HeartbeatReply(p, n, term, Reply(term, true));
    DoBeat(cfg, c, n, term, i);
    var c1 := Do(cfg, c, Beat(n));
    DoObey(cfg, c1, n, p, term);
    var c2 := Do(cfg, c1, Obey(beat));
    DoNote(cfg, c2, n, term, i);
    steps := [Beat(n), Obey(beat), Note(n, reply)];
    ThreeSteps(cfg, c, Beat(n), Obey(beat), Note(n, reply));
    FollowerTerm(c2.nodes[p], n, term);
  }

  lemma FollowerTerm(s: State, leader: Id, term: int)
    requires Follows(s, leader, term)
    ensures s.term == term
  {
  }

  lemma {:induction false} BeatLoop(cfg: Config, c: Cluster, n: Id, term: int, i: nat) returns (steps: seq<Step>)
    requires Announcing(cfg, c, n, term, i)
    ensures IsRun(cfg, c, steps) && Announcing(cfg, After(cfg, c, steps), n, term, |cfg.peers[n]|)
    decreases |cfg.peers[n]| - i
  {
    if i == |cfg.peers[n]| {
      EmptyRun(cfg, c);
      steps := [];
    } else {
      steps := OneBeat(cfg, c, n, term, i);
      hide IsRun, After, WellFormed, TermsUpTo, Follows;
      var d := After(cfg, c, steps);
      var rest := BeatLoop(cfg, d, n, term, i + 1);
      RunConcat(cfg, c, steps, rest);
      steps := steps + rest;
    }
  }

  lemma DoAssert(cfg: Config, c: Cluster, n: Id, term: int)
    requires Won(cfg, c, n, term)
    ensures Enabled(cfg, c, Assert(n)) && Announcing(cfg, Do(cfg, c, Assert(n)), n, term, 0)
  {
    hide WellFormed;
  }

  lemma AllAnnounced(cfg: Config, c: Cluster, n: Id, term: int)
    requires n in cfg.peers && Announcing(cfg, c, n, term, |cfg.peers[n]|)
    ensures Settled(cfg, c, n, term)
  {
    hide Follows;
    assert PeersOk(cfg.members, n, cfg.peers[n]);
    forall m | m in cfg.members && m != n
      ensures Follows(c.nodes[m], n, term)
    {
      assert m in cfg.members - {n};
      var j :| 0 <= j < |cfg.peers[n]| && cfg.peers[n][j] == m;
    }
  }

  /** A winner makes itself known to everybody with one round of heartbeats, and deposes whoever
      else was in the leader role. */
  lemma Announce(cfg: Config, c: Cluster, n: Id, term: int) returns (steps: seq<Step>)
    requires Won(cfg, c, n, term)
    ensures IsRun(cfg, c, steps) && Settled(cfg, After(cfg, c, steps), n, term)
  {
    DoAssert(cfg, c, n, term);
    hide Enabled, Do, IsRun, After, Announcing, Settled;
    var d := Do(cfg, c, Assert(n));
    OneStep(cfg, c, Assert(n));
    var rest := BeatLoop(cfg, d, n, term, 0);
    RunConcat(cfg, c, [Assert(n)], rest);
    steps := [Assert(n)] + rest;
    AllAnnounced(cfg, After(cfg, d, rest), n, term);
  }

  /* ---------------- from anywhere ---------------- */

  /** What ends a member's present activity with no help from others. */
  ghost function Finishing(cfg: Config, c: Cluster, n: Id): Step
    requires Shape(cfg, c) && n in cfg.members
  {
    match c.acts[n]
    case Asking(_, next, _, _) => if next < |cfg.peers[n]| then AskFailed(n) else RunOut(n)
    case Beating(_, next, _) => if next < |cfg.peers[n]| then BeatFailed(n) else BeatDone(n)
    case _ => Begin(n)
  }

  function ToFinish(a: Activity, peers: nat): nat {
    match a
    case Idle => 0
    case Bidding => peers + 2
    case Asking(_, next, _, _) => 1 + if next < peers then peers - next else 0
    case Beating(_, next, _) => 1 + if next < peers then peers - next else 0
  }

  /** Only `n` has moved, and not back. */
  ghost predicate MovedAlone(cfg: Config, c: Cluster, d: Cluster, n: Id)
    requires Shape(cfg, c) && n in cfg.members
  {
    && Shape(cfg, d) && (forall m :: m in cfg.members && m != n ==> d.nodes[m] == c.nodes[m])
    && d.nodes[n].term >= c.nodes[n].term && c.elected <= d.elected
    && (c.acts[n] == Bidding || d.nodes[n] == c.nodes[n])
    && (c.nodes[n].role != Leader ==> d.nodes[n].role != Leader)
  }

  lemma FinishOne(cfg: Config, c: Cluster, n: Id)
    requires Shape(cfg, c) && n in cfg.members && c.acts[n] != Idle
    ensures Enabled(cfg, c, Finishing(cfg, c, n))
    ensures var d := Do(cfg, c, Finishing(cfg, c, n));
            && MovedAlone(cfg, c, d, n) && d.acts[n] != Bidding
            && ToFinish(d.acts[n], |cfg.peers[n]|) < ToFinish(c.acts[n], |cfg.peers[n]|)
  {
  }

  /** Any member can come to rest by itself. */
  lemma {:induction false} Rest(cfg: Config, c: Cluster, n: Id) returns (steps: seq<Step>)
    requires Shape(cfg, c) && n in cfg.members
    ensures IsRun(cfg, c, steps)
    ensures var d := After(cfg, c, steps); MovedAlone(cfg, c, d, n) && d.acts[n] == Idle
    decreases ToFinish(c.acts[n], |cfg.peers[n]|)
  {
    if c.acts[n] == Idle {
      EmptyRun(cfg, c);
      steps := [];
    } else {
      hide Enabled, Do, Finishing, IsRun, After;
      FinishOne(cfg, c, n);
      var step := Finishing(cfg, c, n);
      var d := Do(cfg, c, step);
      var rest := Rest(cfg, d, n);
      MoreRun(cfg, c, step, rest);
      steps := [step] + rest;
    }
  }

  /** A member at rest outside the leader role can raise its term as far as it takes. */
  lemma {:induction false} Climb(cfg: Config, c: Cluster, n: Id, term: int) returns (steps: seq<Step>)
    requires Shape(cfg, c) && n in cfg.members && c.acts[n] == Idle && c.nodes[n].role != Leader
    ensures IsRun(cfg, c, steps)
    ensures var d := After(cfg, c, steps);
            && Shape(cfg, d) && d.acts[n] == Idle && d.nodes[n].role != Leader && d.nodes[n].term >= term
            && forall m :: m in cfg.members && m != n ==> d.nodes[m] == c.nodes[m]
    decreases if term > c.nodes[n].term then term - c.nodes[n].term else 0
  {
    if term <= c.nodes[n].term {
      EmptyRun(cfg, c);
      steps := [];
    } else {
      hide Enabled, Do, IsRun, After;
      DoBid(cfg, c, n);
      TwoSteps(cfg, c, Expire(n), Begin(n));
      var d := Do(cfg, Do(cfg, c, Expire(n)), Begin(n));
      var quiet := Rest(cfg, d, n);
      var e := After(cfg, d, quiet);
      RunConcat(cfg, c, [Expire(n), Begin(n)], quiet);
      var more := Climb(cfg, e, n, term);
      RunConcat(cfg, c, [Expire(n), Begin(n)] + quiet, more);
      steps := [Expire(n), Begin(n)] + quiet + more;
    }
  }

  lemma {:induction false} HighestTerm(nodes: map<Id, State>, some: set<Id>) returns (term: int)
    requires some <= nodes.Keys
    ensures forall m :: m in some ==> nodes[m].term <= term
    decreases some
  {
    if some == {} {
      term := 0;
    } else {
      var m :| m in some;
      var t := HighestTerm(nodes, some - {m});
      term := if nodes[m].term > t then nodes[m].term else t;
      assert forall x :: x in some ==> x == m || x in some - {m};
    }
  }

  lemma AtRestCanLead(cfg: Config, c: Cluster, n: Id) returns (steps: seq<Step>)
    requires Shape(cfg, c) && WellFormed(cfg) && n in cfg.members && |cfg.members| >= 2
    requires c.acts[n] == Idle && c.nodes[n].role != Leader
    ensures IsRun(cfg, c, steps)
    ensures var d := After(cfg, c, steps); Shape(cfg, d) && Settled(cfg, d, n, d.nodes[n].term)
  {
    hide IsRun, After, WellFormed, Follows;
    var term := HighestTerm(c.nodes, cfg.members);
    var climb := Climb(cfg, c, n, term);
    var d := After(cfg, c, climb);
    assert TermsUpTo(cfg, d, d.nodes[n].term);
    var win := Campaign(cfg, d, n);
    var e := After(cfg, d, win);
    RunConcat(cfg, c, climb, win);
    var tell := Announce(cfg, e, n, d.nodes[n].term + 1);
    RunConcat(cfg, c, climb + win, tell);
    steps := climb + win + tell;
  }

  /* ---------------- a leader that is behind ---------------- */

  lemma DoSkip(cfg: Config, c: Cluster, n: Id, term: int, i: nat)
    requires Shape(cfg, c) && n in cfg.members && i < |cfg.peers[n]| && c.acts[n] == Beating(term, i, false)
    ensures Enabled(cfg, c, BeatFailed(n))
    ensures var d := Do(cfg, c, BeatFailed(n)); d.nodes == c.nodes && d.acts[n] == Beating(term, i + 1, false)
  {
  }

  lemma {:induction false} SkipTo(cfg: Config, c: Cluster, n: Id, term: int, i: nat, j: nat) returns (steps: seq<Step>)
    requires Shape(cfg, c) && n in cfg.members && i <= j <= |cfg.peers[n]| && c.acts[n] == Beating(term, i, false)
    ensures IsRun(cfg, c, steps)
    ensures var d := After(cfg, c, steps); Shape(cfg, d) && d.nodes == c.nodes && d.acts[n] == Beating(term, j, false)
    decreases j - i
  {
    if i == j {
      EmptyRun(cfg, c);
      steps := [];
    } else {
      hide Enabled, Do, IsRun, After;
      DoSkip(cfg, c, n, term, i);
      var rest := SkipTo(cfg, Do(cfg, c, BeatFailed(n)), n, term, i + 1, j);
      MoreRun(cfg, c, BeatFailed(n), rest);
      steps := [BeatFailed(n)] + rest;
    }
  }

  lemma DoRefuse(cfg: Config, c: Cluster, n: Id, p: Id, term: int)
    requires Shape(cfg, c) && n in cfg.members && p in cfg.members && p != n
    requires Heartbeat(n, p, term) in c.sent && c.nodes[p].term > term
    ensures Enabled(cfg, c, Obey(Heartbeat(n, p, term)))
    ensures var d := Do(cfg, c, Obey(Heartbeat(n, p, term)));
            d.nodes == c.nodes && d.acts[n] == c.acts[n] && HeartbeatReply(p, n, term, Reply(c.nodes[p].term, false)) in d.sent
  {
  }

  lemma DoStepDown(cfg: Config, c: Cluster, n: Id, term: int, i: nat, newer: int)
    requires Shape(cfg, c) && n in cfg.members && i < |cfg.peers[n]| && c.acts[n] == Beating(term, i, true)
    requires c.nodes[n].role == Leader && c.nodes[n].term == term < newer
    requires HeartbeatReply(cfg.peers[n][i], n, term, Reply(newer, false)) in c.sent
    ensures var reply := HeartbeatReply(cfg.peers[n][i], n, term, Reply(newer, false));
            && Enabled(cfg, c, Note(n, reply))
            && var d := Do(cfg, c, Note(n, reply)); d.nodes[n] == State(Follower, newer, "", "") && d.acts[n] == Idle
  {
  }

  lemma DoStartBeating(cfg: Config, c: Cluster, n: Id)
    requires Shape(cfg, c) && n in cfg.members && c.acts[n] == Idle && c.nodes[n].role == Leader
    ensures Enabled(cfg, c, Assert(n))
    ensures var d := Do(cfg, c, Assert(n)); d.nodes == c.nodes && d.acts[n] == Beating(c.nodes[n].term, 0, false)
  {
  }

  /** A leader that some peer has left behind learns so from a heartbeat's reply, and steps down. */
  lemma Depose(cfg: Config, c: Cluster, n: Id, j: nat) returns (steps: seq<Step>)
    requires Shape(cfg, c) && WellFormed(cfg) && n in cfg.members && j < |cfg.peers[n]|
    requires c.acts[n] == Idle && c.nodes[n].role == Leader
    requires cfg.peers[n][j] in c.nodes && c.nodes[cfg.peers[n][j]].term > c.nodes[n].term
    ensures IsRun(cfg, c, steps)
    ensures var d := After(cfg, c, steps); Shape(cfg, d) && d.acts[n] == Idle && d.nodes[n].role == Follower
  {
    hide WellFormed, Enabled, Do, IsRun, After;
    var term, p := c.nodes[n].term, cfg.peers[n][j];
    OtherPeers(cfg, n, j);
    DoStartBeating(cfg, c, n);
    OneStep(cfg, c, Assert(n));
    var c1 := Do(cfg, c, Assert(n));
    var skip := SkipTo(cfg, c1, n, term, 0, j);
    RunConcat(cfg, c, [Assert(n)], skip);
    var c2 := After(cfg, c1, skip);
    var beat, reply := Heartbeat(n, p, term), HeartbeatReply(p, n, term, Reply(c.nodes[p].term, false));
    DoBeat(cfg, c2, n, term, j);
    var c3 := Do(cfg, c2, Beat(n));
    DoRefuse(cfg, c3, n, p, term);
    var c4 := Do(cfg, c3, Obey(beat));
    DoStepDown(cfg, c4, n, term, j, c.nodes[p].term);
    ThreeSteps(cfg, c2, Beat(n), Obey(beat), Note(n, reply));
    RunConcat(cfg, c, [Assert(n)] + skip, [Beat(n), Obey(beat), Note(n, reply)]);
    steps := [Assert(n)] + skip + [Beat(n), Obey(beat), Note(n, reply)];
  }

  lemma LeaderCanLead(cfg: Config, c: Cluster, n: Id) returns (steps: seq<Step>)
    requires Inv(cfg, c) && n in cfg.members && |cfg.members| >= 2 && c.acts[n] == Idle && c.nodes[n].role == Leader
    ensures IsRun(cfg, c, steps)
    ensures var d := After(cfg, c, steps); Shape(cfg, d) && Settled(cfg, d, n, d.nodes[n].term)
  {
    assert StateOk(c.elected, n, c.nodes[n]);
    hide Inv, IsRun, After, Follows;
    if TermsUpTo(cfg, c, c.nodes[n].term) {
      assert Won(cfg, c, n, c.nodes[n].term);
      steps := Announce(cfg, c, n, c.nodes[n].term);
    } else {
      var p :| p in cfg.members && c.nodes[p].term > c.nodes[n].term;
      assert PeersOk(cfg.members, n, cfg.peers[n]);
      assert p in cfg.members - {n};
      var j :| 0 <= j < |cfg.peers[n]| && cfg.peers[n][j] == p;
      hide WellFormed;
      var down := Depose(cfg, c, n, j);
      var up := AtRestCanLead(cfg, After(cfg, c, down), n);
      RunConcat(cfg, c, down, up);
      steps := down + up;
    }
  }

  /** From every reachable state, every member of a cluster of two or more can come to lead it, in a
      term in which all the others follow: whatever has been lost, whoever is ahead, whoever leads. */
  lemma AnyoneCanLead(cfg: Config, c: Cluster, n: Id) returns (steps: seq<Step>)
    requires Inv(cfg, c) && n in cfg.members && |cfg.members| >= 2
    ensures IsRun(cfg, c, steps)
    ensures var d := After(cfg, c, steps); Shape(cfg, d) && Settled(cfg, d, n, d.nodes[n].term)
  {
    hide IsRun, After, Settled;
    var quiet := Rest(cfg, c, n);
    var d := After(cfg, c, quiet);
    RunKeepsInv(cfg, c, quiet);
    hide Inv;
    var more: seq<Step>;
    if d.nodes[n].role == Leader {
      more := LeaderCanLead(cfg, d, n);
    } else {
      assert WellFormed(cfg) by { InvWellFormed(cfg, d); }
      more := AtRestCanLead(cfg, d, n);
    }
    RunConcat(cfg, c, quiet, more);
    steps := quiet + more;
  }

  lemma InvWellFormed(cfg: Config, c: Cluster)
    requires Inv(cfg, c)
    ensures WellFormed(cfg)
  {
  }

  /** From the start, any member of a cluster of two or more wins the first term, and no more than
      half of the members have to be asked. */
  lemma FirstElection(cfg: Config, n: Id) returns (steps: seq<Step>)
    requires WellFormed(cfg) && n in cfg.members && |cfg.members| >= 2
    ensures IsRun(cfg, Start(cfg), steps) && Asks(steps) == |cfg.members| / 2
    ensures Election(1, n) in After(cfg, Start(cfg), steps).elected
  {
    assert Shape(cfg, Start(cfg));
    hide IsRun, After, WellFormed, Asks;
    steps := Campaign(cfg, Start(cfg), n);
  }
}
