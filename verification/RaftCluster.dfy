/** A whole cluster of election nodes. RPCs are sent with the lock released, so every step below
    is one critical section of one node; requests and replies stay in `sent` for ever and may be
    delivered late, in any order, repeatedly or never. `ballots` and `elected` are history: who
    ever voted for whom, and who ever took the leader role. */
module RaftCluster {
  import opened RaftNode
  import Counting

  datatype Config = Config(members: set<Id>, peers: map<Id, seq<Id>>)

  /** Ids are unique and not empty, and each filtered peer list is "everyone but me". */
  ghost predicate WellFormed(cfg: Config) {
    && "" !in cfg.members
    && cfg.peers.Keys == cfg.members
    && forall n :: n in cfg.members ==> PeersOk(cfg.members, n, cfg.peers[n])
  }

  ghost predicate PeersOk(members: set<Id>, n: Id, peers: seq<Id>) {
    && (forall i, j :: 0 <= i < j < |peers| ==> peers[i] != peers[j])
    && (set p | p in peers) == members - {n}
  }

  /** What a node's timer thread is in the middle of, with the lock released. */
  datatype Activity =
    | Idle
    | Bidding                                                  // saw its deadline pass
    | Asking(term: int, next: nat, votes: nat, waiting: bool)  // in the vote loop, at peer `next`
    | Beating(term: int, next: nat, waiting: bool)             // in the heartbeat loop

  datatype Message =
    | VoteRequest(from: Id, to: Id, term: int)
    | VoteReply(from: Id, to: Id, asked: int, reply: Reply)
    | Heartbeat(from: Id, to: Id, term: int)
    | HeartbeatReply(from: Id, to: Id, asked: int, reply: Reply)

  datatype Ballot = Ballot(voter: Id, term: int, candidate: Id)

  datatype Election = Election(term: int, winner: Id)

  datatype Cluster = Cluster(nodes: map<Id, State>, acts: map<Id, Activity>, sent: set<Message>,
                             ballots: set<Ballot>, elected: set<Election>)

  function Start(cfg: Config): Cluster {
    Cluster(map n | n in cfg.members :: INITIAL, map n | n in cfg.members :: Idle, {}, {}, {})
  }

  /* ---------------- steps ---------------- */

  datatype Step =
    | Expire(id: Id)                    // the timer finds a non-leader past its deadline
    | Begin(id: Id)                     // start_election's first critical section
    | Ask(id: Id)                       // a RequestVote leaves for the next peer
    | AskFailed(id: Id)                 // that peer is unreachable or never answers
    | Vote(request: Message)            // a peer handles a RequestVote
    | Count(id: Id, answer: Message)    // the candidate handles the reply
    | RunOut(id: Id)                    // no peers left to ask
    | Assert(id: Id)                    // send_heartbeats' first critical section
    | Beat(id: Id)                      // an AppendEntries leaves for the next peer
    | BeatFailed(id: Id)
    | Obey(beat: Message)               // a peer handles an AppendEntries
    | Note(id: Id, answer: Message)     // the leader handles the reply
    | BeatDone(id: Id)

  ghost predicate Enabled(cfg: Config, c: Cluster, step: Step)
    requires c.nodes.Keys == c.acts.Keys == cfg.members == cfg.peers.Keys
  {
    match step
    case Expire(n) => n in cfg.members && c.acts[n] == Idle && c.nodes[n].role != Leader
    case Begin(n) => n in cfg.members && c.acts[n] == Bidding
    case Ask(n) => n in cfg.members && c.acts[n].Asking? && !c.acts[n].waiting && c.acts[n].next < |cfg.peers[n]|
    case AskFailed(n) => n in cfg.members && c.acts[n].Asking? && c.acts[n].next < |cfg.peers[n]|
    case Vote(m) => m in c.sent && m.VoteRequest? && m.to in cfg.members
    case Count(n, m) =>
      && n in cfg.members && c.acts[n].Asking? && c.acts[n].waiting && c.acts[n].next < |cfg.peers[n]|
      && m in c.sent && m.VoteReply? && m.to == n
      && m.from == cfg.peers[n][c.acts[n].next] && m.asked == c.acts[n].term
    case RunOut(n) => n in cfg.members && c.acts[n].Asking? && c.acts[n].next >= |cfg.peers[n]|
    case Assert(n) => n in cfg.members && c.acts[n] == Idle && c.nodes[n].role == Leader
    case Beat(n) => n in cfg.members && c.acts[n].Beating? && !c.acts[n].waiting && c.acts[n].next < |cfg.peers[n]|
    case BeatFailed(n) => n in cfg.members && c.acts[n].Beating? && c.acts[n].next < |cfg.peers[n]|
    case Obey(m) => m in c.sent && m.Heartbeat? && m.to in cfg.members
    case Note(n, m) =>
      && n in cfg.members && c.acts[n].Beating? && c.acts[n].waiting && c.acts[n].next < |cfg.peers[n]|
      && m in c.sent && m.HeartbeatReply? && m.to == n
      && m.from == cfg.peers[n][c.acts[n].next] && m.asked == c.acts[n].term
    case BeatDone(n) => n in cfg.members && c.acts[n].Beating? && c.acts[n].next >= |cfg.peers[n]|
  }

  /** Every step changes the state and activity of one node and adds to the sets. */
  datatype Change = Change(id: Id, state: State, act: Activity, sent: set<Message>,
                           ballots: set<Ballot>, elected: set<Election>)

  function Commit(c: Cluster, ch: Change): Cluster {
    Cluster(c.nodes[ch.id := ch.state], c.acts[ch.id := ch.act], c.sent + ch.sent,
            c.ballots + ch.ballots, c.elected + ch.elected)
  }

  ghost function Effect(cfg: Config, c: Cluster, step: Step): Change
    requires c.nodes.Keys == c.acts.Keys == cfg.members == cfg.peers.Keys
    requires Enabled(cfg, c, step)
  {
    match step
    case Expire(n) => Change(n, c.nodes[n], Bidding, {}, {}, {})
    case Begin(n) =>
      var s := OnBeginElection(c.nodes[n], n);
      Change(n, s, Asking(s.term, 0, 1, false), {}, {Ballot(n, s.term, n)}, {})
    case Ask(n) =>
      var a := c.acts[n];
      Change(n, c.nodes[n], Asking(a.term, a.next, a.votes, true), {VoteRequest(n, cfg.peers[n][a.next], a.term)}, {}, {})
    case AskFailed(n) =>
      var a := c.acts[n];
      Change(n, c.nodes[n], Asking(a.term, a.next + 1, a.votes, false), {}, {}, {})
    case Vote(m) =>
      var r := OnRequestVote(c.nodes[m.to], m.term, m.from);
      Change(m.to, r.state, c.acts[m.to], {VoteReply(m.to, m.from, m.term, r.reply)},
             if r.reply.granted then {Ballot(m.to, m.term, m.from)} else {}, {})
    case Count(n, m) =>
      var a := c.acts[n];
      var t := OnVoteReply(c.nodes[n], n, a.term, a.votes, Majority(|cfg.peers[n]|), m.reply);
      Change(n, t.state, if t.verdict == Ongoing then Asking(a.term, a.next + 1, t.votes, false) else Idle,
             {}, {}, if t.verdict == Won then {Election(a.term, n)} else {})
    case RunOut(n) => Change(n, c.nodes[n], Idle, {}, {}, {})
    case Assert(n) => Change(n, c.nodes[n], Beating(c.nodes[n].term, 0, false), {}, {}, {})
    case Beat(n) =>
      var a := c.acts[n];
      Change(n, c.nodes[n], Beating(a.term, a.next, true), {Heartbeat(n, cfg.peers[n][a.next], a.term)}, {}, {})
    case BeatFailed(n) =>
      var a := c.acts[n];
      Change(n, c.nodes[n], Beating(a.term, a.next + 1, false), {}, {}, {})
    case Obey(m) =>
      var r := OnAppendEntries(c.nodes[m.to], m.term, m.from);
      Change(m.to, r.state, c.acts[m.to], {HeartbeatReply(m.to, m.from, m.term, r.reply)}, {}, {})
    case Note(n, m) =>
      var a := c.acts[n];
      var o := OnBeatReply(c.nodes[n], a.term, m.reply.term);
      Change(n, o.state, if o.goOn then Beating(a.term, a.next + 1, false) else Idle, {}, {}, {})
    case BeatDone(n) => Change(n, c.nodes[n], Idle, {}, {}, {})
  }

  /* ---------------- the invariant ---------------- */

  function Supporters(ballots: set<Ballot>, candidate: Id, term: int): set<Id> {
    set b | b in ballots && b.term == term && b.candidate == candidate :: b.voter
  }

  /** The members whose answers a candidate can have counted once `next` peers are behind it. */
  function Reached(cfg: Config, n: Id, next: nat): set<Id>
    requires n in cfg.peers && next <= |cfg.peers[n]|
  {
    {n} + set p | p in cfg.peers[n][..next]
  }

  ghost predicate BallotOk(cfg: Config, c: Cluster, b: Ballot)
    requires c.nodes.Keys == cfg.members
  {
    && b.voter in cfg.members && b.candidate in cfg.members
    && b.term <= c.nodes[b.voter].term
    && (b.term == c.nodes[b.voter].term ==> c.nodes[b.voter].votedFor == b.candidate)
  }

  /** A vote that a node remembers has been cast. */
  predicate VoteOk(ballots: set<Ballot>, n: Id, s: State) {
    s.votedFor != "" ==> Ballot(n, s.term, s.votedFor) in ballots
  }

  ghost predicate OneVotePerTerm(ballots: set<Ballot>) {
    forall a, b :: a in ballots && b in ballots && a.voter == b.voter && a.term == b.term ==> a == b
  }

  ghost predicate MessageOk(cfg: Config, ballots: set<Ballot>, elected: set<Election>, m: Message) {
    && m.from in cfg.members && m.to in cfg.members
    && (m.VoteReply? && m.reply.granted ==> Ballot(m.from, m.asked, m.to) in ballots)
    && (m.Heartbeat? ==> m.from != m.to && Election(m.term, m.from) in elected)
  }

  ghost predicate ActOk(cfg: Config, ballots: set<Ballot>, elected: set<Election>, n: Id, s: State, a: Activity)
    requires n in cfg.peers
  {
    match a
    case Idle => true
    case Bidding => s.role != Leader
    case Asking(term, next, votes, _) =>
      && s.role != Leader && next <= |cfg.peers[n]|
      && votes <= |Supporters(ballots, n, term) * Reached(cfg, n, next)|
    case Beating(term, _, _) => Election(term, n) in elected
  }

  ghost predicate StateOk(elected: set<Election>, n: Id, s: State) {
    && (s.role == Leader ==> s.leaderId == n)
    && (s.leaderId != "" ==> Election(s.term, s.leaderId) in elected)
  }

  ghost predicate ElectionOk(cfg: Config, ballots: set<Ballot>, e: Election) {
    && e.winner in cfg.members && |cfg.members| >= 2
    && |Supporters(ballots, e.winner, e.term)| >= |cfg.members| / 2 + 1
  }

  ghost predicate Inv(cfg: Config, c: Cluster) {
    && WellFormed(cfg)
    && c.nodes.Keys == c.acts.Keys == cfg.members
    && (forall b :: b in c.ballots ==> BallotOk(cfg, c, b))
    && OneVotePerTerm(c.ballots)
    && (forall m :: m in c.sent ==> MessageOk(cfg, c.ballots, c.elected, m))
    && (forall n :: n in cfg.members ==> ActOk(cfg, c.ballots, c.elected, n, c.nodes[n], c.acts[n]))
    && (forall n :: n in cfg.members ==> StateOk(c.elected, n, c.nodes[n]))
    && (forall n :: n in cfg.members ==> VoteOk(c.ballots, n, c.nodes[n]))
    && (forall e :: e in c.elected ==> ElectionOk(cfg, c.ballots, e))
  }

  /** What a single change has to respect, in terms of the changed node alone. */
  ghost predicate Lawful(cfg: Config, c: Cluster, ch: Change)
    requires c.nodes.Keys == cfg.members == cfg.peers.Keys
  {
    var ballots, elected := c.ballots + ch.ballots, c.elected + ch.elected;
    && ch.id in cfg.members
    && KeepsVote(c.nodes[ch.id], ch.state)
    && (forall b :: b in ch.ballots ==> b == Ballot(ch.id, ch.state.term, ch.state.votedFor) && b.candidate in cfg.members)
    && (forall m :: m in ch.sent ==> MessageOk(cfg, ballots, elected, m))
    && ActOk(cfg, ballots, elected, ch.id, ch.state, ch.act)
    && StateOk(elected, ch.id, ch.state) && VoteOk(ballots, ch.id, ch.state)
    && (forall e :: e in ch.elected ==> ElectionOk(cfg, ballots, e))
  }

  /** Terms only grow, and within a term a vote once given stays. */
  ghost predicate KeepsVote(s: State, s': State) {
    s.term <= s'.term && (s.term == s'.term && s.votedFor != "" ==> s'.votedFor == s.votedFor)
  }

  /* ---------------- one change keeps the invariant ---------------- */

  lemma SubsetSize<T>(a: set<T>, b: set<T>)
    requires a <= b
    ensures |a| <= |b|
  {
    assert b == a + (b - a);
  }

  lemma MoreSupport(cfg: Config, ballots: set<Ballot>, ballots': set<Ballot>, n: Id, term: int, reached: set<Id>)
    requires ballots <= ballots'
    ensures |Supporters(ballots, n, term)| <= |Supporters(ballots', n, term)|
    ensures |Supporters(ballots, n, term) * reached| <= |Supporters(ballots', n, term) * reached|
  {
    var s, s' := Supporters(ballots, n, term), Supporters(ballots', n, term);
    assert s <= s';
    SubsetSize(s, s');
    SubsetSize(s * reached, s' * reached);
  }

  lemma ActStaysOk(cfg: Config, ballots: set<Ballot>, ballots': set<Ballot>, elected: set<Election>,
                   elected': set<Election>, n: Id, s: State, a: Activity)
    requires n in cfg.peers && ActOk(cfg, ballots, elected, n, s, a) && ballots <= ballots' && elected <= elected'
    ensures ActOk(cfg, ballots', elected', n, s, a)
  {
    if a.Asking? {
      MoreSupport(cfg, ballots, ballots', n, a.term, Reached(cfg, n, a.next));
    }
  }

  lemma BallotsStayOk(cfg: Config, c: Cluster, ch: Change)
    requires Inv(cfg, c) && Lawful(cfg, c, ch)
    ensures var d := Commit(c, ch);
            d.nodes.Keys == cfg.members && (forall b :: b in d.ballots ==> BallotOk(cfg, d, b)) && OneVotePerTerm(d.ballots)
  {
    hide ActOk, StateOk, ElectionOk, MessageOk;
    var d := Commit(c, ch);
    forall b | b in d.ballots
      ensures BallotOk(cfg, d, b)
    {
      if b in c.ballots {
        assert BallotOk(cfg, c, b);
      }
    }
    forall a, b | a in d.ballots && b in d.ballots && a.voter == b.voter && a.term == b.term
      ensures a == b
    {
      assert BallotOk(cfg, d, a) && BallotOk(cfg, d, b);
    }
  }

  lemma ActsStayOk(cfg: Config, c: Cluster, ch: Change)
    requires Inv(cfg, c) && Lawful(cfg, c, ch)
    ensures var d := Commit(c, ch);
            forall n :: n in cfg.members ==> n in d.nodes && n in d.acts && ActOk(cfg, d.ballots, d.elected, n, d.nodes[n], d.acts[n])
  {
    hide StateOk, ElectionOk, MessageOk, BallotOk, OneVotePerTerm, ActOk, PeersOk;
    var d := Commit(c, ch);
    forall n | n in cfg.members
      ensures n in d.nodes && n in d.acts && ActOk(cfg, d.ballots, d.elected, n, d.nodes[n], d.acts[n])
    {
      if n != ch.id {
        ActStaysOk(cfg, c.ballots, d.ballots, c.elected, d.elected, n, c.nodes[n], c.acts[n]);
      }
    }
  }

  lemma ElectionsStayOk(cfg: Config, c: Cluster, ch: Change)
    requires Inv(cfg, c) && Lawful(cfg, c, ch)
    ensures forall e :: e in Commit(c, ch).elected ==> ElectionOk(cfg, Commit(c, ch).ballots, e)
  {
    hide StateOk, MessageOk, BallotOk, OneVotePerTerm, ActOk, PeersOk, ElectionOk;
    var d := Commit(c, ch);
    forall e | e in d.elected
      ensures ElectionOk(cfg, d.ballots, e)
    {
      if e in c.elected {
        ElectionStaysOk(cfg, c.ballots, d.ballots, e);
      }
    }
  }

  lemma ElectionStaysOk(cfg: Config, ballots: set<Ballot>, ballots': set<Ballot>, e: Election)
    requires ElectionOk(cfg, ballots, e) && ballots <= ballots'
    ensures ElectionOk(cfg, ballots', e)
  {
    MoreSupport(cfg, ballots, ballots', e.winner, e.term, {});
  }

  lemma MessagesStayOk(cfg: Config, c: Cluster, ch: Change)
    requires Inv(cfg, c) && Lawful(cfg, c, ch)
    ensures forall m :: m in Commit(c, ch).sent ==> MessageOk(cfg, Commit(c, ch).ballots, Commit(c, ch).elected, m)
  {
    hide StateOk, ElectionOk, BallotOk, OneVotePerTerm, ActOk, PeersOk, MessageOk;
    var d := Commit(c, ch);
    forall m | m in d.sent
      ensures MessageOk(cfg, d.ballots, d.elected, m)
    {
      if m in c.sent {
        MessageStaysOk(cfg, c.ballots, d.ballots, c.elected, d.elected, m);
      }
    }
  }

  lemma MessageStaysOk(cfg: Config, ballots: set<Ballot>, ballots': set<Ballot>, elected: set<Election>,
                       elected': set<Election>, m: Message)
    requires MessageOk(cfg, ballots, elected, m) && ballots <= ballots' && elected <= elected'
    ensures MessageOk(cfg, ballots', elected', m)
  {
  }

  lemma StatesStayOk(cfg: Config, c: Cluster, ch: Change)
    requires Inv(cfg, c) && Lawful(cfg, c, ch)
    ensures forall n :: n in cfg.members ==> n in Commit(c, ch).nodes && StateOk(Commit(c, ch).elected, n, Commit(c, ch).nodes[n])
  {
    hide ElectionOk, MessageOk, BallotOk, OneVotePerTerm, ActOk, PeersOk, VoteOk;
  }

  lemma VotesStayOk(cfg: Config, c: Cluster, ch: Change)
    requires Inv(cfg, c) && Lawful(cfg, c, ch)
    ensures forall n :: n in cfg.members ==> n in Commit(c, ch).nodes && VoteOk(Commit(c, ch).ballots, n, Commit(c, ch).nodes[n])
  {
    hide ElectionOk, MessageOk, BallotOk, OneVotePerTerm, ActOk, PeersOk, StateOk;
  }

  lemma CommitKeepsInv(cfg: Config, c: Cluster, ch: Change)
    requires Inv(cfg, c) && Lawful(cfg, c, ch)
    ensures Inv(cfg, Commit(c, ch))
  {
    hide ActOk, ElectionOk, BallotOk, MessageOk, StateOk, VoteOk, OneVotePerTerm, Lawful;
    BallotsStayOk(cfg, c, ch);
    ActsStayOk(cfg, c, ch);
    ElectionsStayOk(cfg, c, ch);
    MessagesStayOk(cfg, c, ch);
    StatesStayOk(cfg, c, ch);
    VotesStayOk(cfg, c, ch);
    assert ch.id in cfg.members by { LawfulMember(cfg, c, ch); }
    assert Commit(c, ch).acts.Keys == cfg.members;
  }

  lemma LawfulMember(cfg: Config, c: Cluster, ch: Change)
    requires c.nodes.Keys == cfg.members == cfg.peers.Keys && Lawful(cfg, c, ch)
    ensures ch.id in cfg.members
  {
  }

  /* ---------------- every step is a lawful change ---------------- */

  /** A step that touches neither the node's state nor any history. */
  lemma LawfulActivity(cfg: Config, c: Cluster, n: Id, a: Activity, sent: set<Message>)
    requires Inv(cfg, c) && n in cfg.members && ActOk(cfg, c.ballots, c.elected, n, c.nodes[n], a)
    requires forall m :: m in sent ==> MessageOk(cfg, c.ballots, c.elected, m)
    ensures Lawful(cfg, c, Change(n, c.nodes[n], a, sent, {}, {}))
  {
    hide ActOk, ElectionOk, BallotOk, OneVotePerTerm, PeersOk, MessageOk;
    assert c.ballots + {} == c.ballots && c.elected + {} == c.elected;
    assert StateOk(c.elected, n, c.nodes[n]) && VoteOk(c.ballots, n, c.nodes[n]);
  }

  lemma PeerIsOther(cfg: Config, n: Id, i: nat)
    requires WellFormed(cfg) && n in cfg.members && i < |cfg.peers[n]|
    ensures cfg.peers[n][i] in cfg.members && cfg.peers[n][i] != n
  {
    assert PeersOk(cfg.members, n, cfg.peers[n]);
    var peer := cfg.peers[n][i];
    assert peer in cfg.peers[n];
    assert peer in cfg.members - {n};
  }

  lemma PeerCount(cfg: Config, n: Id)
    requires WellFormed(cfg) && n in cfg.members
    ensures |cfg.peers[n]| == |cfg.members| - 1
    ensures Majority(|cfg.peers[n]|) == |cfg.members| / 2 + 1
  {
    assert PeersOk(cfg.members, n, cfg.peers[n]);
    Counting.DistinctCount(cfg.peers[n]);
  }

  lemma ReachedGrows(cfg: Config, n: Id, next: nat)
    requires WellFormed(cfg) && n in cfg.members && next < |cfg.peers[n]|
    ensures Reached(cfg, n, next + 1) == Reached(cfg, n, next) + {cfg.peers[n][next]}
    ensures cfg.peers[n][next] !in Reached(cfg, n, next)
  {
    PeerIsOther(cfg, n, next);
    var ps := cfg.peers[n];
    assert ps[..next + 1] == ps[..next] + [ps[next]];
    assert PeersOk(cfg.members, n, ps);
  }

  lemma LawfulBegin(cfg: Config, c: Cluster, n: Id)
    requires Inv(cfg, c) && Enabled(cfg, c, Begin(n))
    ensures Lawful(cfg, c, Effect(cfg, c, Begin(n)))
  {
    hide ElectionOk, BallotOk, OneVotePerTerm, PeersOk, MessageOk;
    var s := OnBeginElection(c.nodes[n], n);
    var ballots := c.ballots + {Ballot(n, s.term, n)};
    var support := Supporters(ballots, n, s.term) * Reached(cfg, n, 0);
    assert Ballot(n, s.term, n) in ballots;
    assert n in support;
    SubsetSize({n}, support);
  }

  lemma LawfulVote(cfg: Config, c: Cluster, m: Message)
    requires Inv(cfg, c) && Enabled(cfg, c, Vote(m))
    ensures Lawful(cfg, c, Effect(cfg, c, Vote(m)))
  {
    hide ElectionOk, BallotOk, OneVotePerTerm, PeersOk, Supporters;
    var ch := Effect(cfg, c, Vote(m));
    assert MessageOk(cfg, c.ballots, c.elected, m);
    assert StateOk(c.elected, m.to, c.nodes[m.to]) && VoteOk(c.ballots, m.to, c.nodes[m.to]);
    assert c.elected + ch.elected == c.elected;
    var s := c.nodes[m.to];
    ActOkAfterDemotion(cfg, c.ballots, c.elected, m.to, s, ch.state, c.acts[m.to]);
    ActStaysOk(cfg, c.ballots, c.ballots + ch.ballots, c.elected, c.elected, m.to, ch.state, c.acts[m.to]);
  }

  /** An activity stays in order when its node loses the leader role or keeps its role. */
  lemma ActOkAfterDemotion(cfg: Config, ballots: set<Ballot>, elected: set<Election>, n: Id, s: State, s': State, a: Activity)
    requires n in cfg.peers && ActOk(cfg, ballots, elected, n, s, a)
    requires s'.role != Leader || s'.role == s.role
    ensures ActOk(cfg, ballots, elected, n, s', a)
  {
  }

  lemma LawfulObey(cfg: Config, c: Cluster, m: Message)
    requires Inv(cfg, c) && Enabled(cfg, c, Obey(m))
    ensures Lawful(cfg, c, Effect(cfg, c, Obey(m)))
  {
    hide ElectionOk, BallotOk, OneVotePerTerm, PeersOk, Supporters;
    var ch := Effect(cfg, c, Obey(m));
    assert MessageOk(cfg, c.ballots, c.elected, m);
    assert StateOk(c.elected, m.to, c.nodes[m.to]) && VoteOk(c.ballots, m.to, c.nodes[m.to]);
    assert c.ballots + ch.ballots == c.ballots && c.elected + ch.elected == c.elected;
    ActOkAfterDemotion(cfg, c.ballots, c.elected, m.to, c.nodes[m.to], ch.state, c.acts[m.to]);
  }

  lemma OneMore(support: set<Id>, reached: set<Id>, peer: Id)
    requires peer !in reached
    ensures |support * reached| <= |support * (reached + {peer})|
    ensures peer in support ==> |support * reached| + 1 <= |support * (reached + {peer})|
  {
    var before, after := support * reached, support * (reached + {peer});
    SubsetSize(before, after);
    if peer in support {
      SubsetSize(before + {peer}, after);
    }
  }

  /** A granted reply adds a supporter that had not been counted. */
  lemma OneMoreVote(cfg: Config, c: Cluster, n: Id, m: Message)
    requires Inv(cfg, c) && Enabled(cfg, c, Count(n, m))
    ensures var a := c.acts[n]; var votes := if m.reply.granted then a.votes + 1 else a.votes;
            votes <= |Supporters(c.ballots, n, a.term) * Reached(cfg, n, a.next + 1)|
  {
    hide BallotOk, OneVotePerTerm, PeersOk, StateOk, ElectionOk, Reached;
    var a := c.acts[n];
    assert ActOk(cfg, c.ballots, c.elected, n, c.nodes[n], a);
    assert MessageOk(cfg, c.ballots, c.elected, m);
    ReachedGrows(cfg, n, a.next);
    BallotSupports(c.ballots, m.from, a.term, n);
    hide Supporters;
    OneMore(Supporters(c.ballots, n, a.term), Reached(cfg, n, a.next), m.from);
  }

  lemma BallotSupports(ballots: set<Ballot>, voter: Id, term: int, candidate: Id)
    ensures Ballot(voter, term, candidate) in ballots ==> voter in Supporters(ballots, candidate, term)
  {
  }

  /** What one reply does to the candidate's own state. */
  lemma CountState(cfg: Config, c: Cluster, n: Id, m: Message)
    requires Inv(cfg, c) && Enabled(cfg, c, Count(n, m))
    ensures var ch := Effect(cfg, c, Count(n, m));
            && KeepsVote(c.nodes[n], ch.state) && VoteOk(c.ballots, n, ch.state) && StateOk(c.elected + ch.elected, n, ch.state)
            && ch.ballots == {} && ch.sent == {} && ch.id == n
            && (ch.elected == {} || ch.elected == {Election(c.acts[n].term, n)})
            && (ch.elected == {} ==> ch.state.role == c.nodes[n].role || ch.state.role == Follower)
            && (ch.elected != {} ==> ch.act == Idle && (if m.reply.granted then c.acts[n].votes + 1 else c.acts[n].votes) >= Majority(|cfg.peers[n]|))
            && (ch.act == Idle ||
                ch.act == Asking(c.acts[n].term, c.acts[n].next + 1, if m.reply.granted then c.acts[n].votes + 1 else c.acts[n].votes, false))
  {
    hide BallotOk, OneVotePerTerm, PeersOk, ActOk, ElectionOk, MessageOk, Majority;
    assert StateOk(c.elected, n, c.nodes[n]) && VoteOk(c.ballots, n, c.nodes[n]);
  }

  lemma CountAct(cfg: Config, c: Cluster, n: Id, m: Message)
    requires Inv(cfg, c) && Enabled(cfg, c, Count(n, m))
    ensures var ch := Effect(cfg, c, Count(n, m)); ActOk(cfg, c.ballots, c.elected + ch.elected, n, ch.state, ch.act)
  {
    hide BallotOk, OneVotePerTerm, PeersOk, Supporters, Reached, MessageOk, Majority, StateOk, VoteOk, KeepsVote, ElectionOk, Effect, ActOk;
    OneMoreVote(cfg, c, n, m);
    CountState(cfg, c, n, m);
    AskerIsNoLeader(cfg, c, n);
    var a, ch := c.acts[n], Effect(cfg, c, Count(n, m));
    if ch.act == Idle {
      IdleIsOk(cfg, c.ballots, c.elected + ch.elected, n, ch.state);
    } else {
      AskingIsOk(cfg, c.ballots, c.elected + ch.elected, n, ch.state, ch.act);
    }
  }

  lemma AskerIsNoLeader(cfg: Config, c: Cluster, n: Id)
    requires Inv(cfg, c) && n in cfg.members && c.acts[n].Asking?
    ensures c.nodes[n].role != Leader
  {
    hide BallotOk, OneVotePerTerm, PeersOk, Supporters, Reached, MessageOk, StateOk, VoteOk, ElectionOk;
    assert ActOk(cfg, c.ballots, c.elected, n, c.nodes[n], c.acts[n]);
  }

  lemma IdleIsOk(cfg: Config, ballots: set<Ballot>, elected: set<Election>, n: Id, s: State)
    requires n in cfg.peers
    ensures ActOk(cfg, ballots, elected, n, s, Idle)
  {
  }

  lemma AskingIsOk(cfg: Config, ballots: set<Ballot>, elected: set<Election>, n: Id, s: State, a: Activity)
    requires n in cfg.peers && a.Asking? && s.role != Leader && a.next <= |cfg.peers[n]|
    requires a.votes <= |Supporters(ballots, n, a.term) * Reached(cfg, n, a.next)|
    ensures ActOk(cfg, ballots, elected, n, s, a)
  {
    hide Supporters, Reached;
  }

  lemma CountElects(cfg: Config, c: Cluster, n: Id, m: Message)
    requires Inv(cfg, c) && Enabled(cfg, c, Count(n, m))
    ensures forall e :: e in Effect(cfg, c, Count(n, m)).elected ==> ElectionOk(cfg, c.ballots, e)
  {
    hide BallotOk, OneVotePerTerm, PeersOk, Supporters, Reached, MessageOk, Majority, StateOk, VoteOk, KeepsVote, ActOk, Effect;
    OneMoreVote(cfg, c, n, m);
    PeerCount(cfg, n);
    CountState(cfg, c, n, m);
    var s := Supporters(c.ballots, n, c.acts[n].term);
    SubsetSize(s * Reached(cfg, n, c.acts[n].next + 1), s);
  }

  lemma LawfulCount(cfg: Config, c: Cluster, n: Id, m: Message)
    requires Inv(cfg, c) && Enabled(cfg, c, Count(n, m))
    ensures Lawful(cfg, c, Effect(cfg, c, Count(n, m)))
  {
    hide BallotOk, OneVotePerTerm, PeersOk, MessageOk, StateOk, VoteOk, Effect, KeepsVote, ActOk, ElectionOk, Majority;
    CountState(cfg, c, n, m);
    CountAct(cfg, c, n, m);
    CountElects(cfg, c, n, m);
    assert c.ballots + {} == c.ballots;
  }

  lemma LawfulNote(cfg: Config, c: Cluster, n: Id, m: Message)
    requires Inv(cfg, c) && Enabled(cfg, c, Note(n, m))
    ensures Lawful(cfg, c, Effect(cfg, c, Note(n, m)))
  {
    hide BallotOk, OneVotePerTerm, PeersOk, MessageOk, ElectionOk;
    var ch := Effect(cfg, c, Note(n, m));
    assert ActOk(cfg, c.ballots, c.elected, n, c.nodes[n], c.acts[n]);
    assert StateOk(c.elected, n, c.nodes[n]) && VoteOk(c.ballots, n, c.nodes[n]);
    assert c.ballots + ch.ballots == c.ballots && c.elected + ch.elected == c.elected;
  }

  lemma LawfulAsking(cfg: Config, c: Cluster, n: Id, step: Step)
    requires Inv(cfg, c) && Enabled(cfg, c, step) && (step == Ask(n) || step == AskFailed(n))
    ensures Lawful(cfg, c, Effect(cfg, c, step))
  {
    hide BallotOk, OneVotePerTerm, PeersOk, StateOk, ElectionOk, Reached, Supporters, Lawful;
    var a := c.acts[n];
    assert ActOk(cfg, c.ballots, c.elected, n, c.nodes[n], a);
    PeerIsOther(cfg, n, a.next);
    ReachedGrows(cfg, n, a.next);
    OneMore(Supporters(c.ballots, n, a.term), Reached(cfg, n, a.next), cfg.peers[n][a.next]);
    var ch := Effect(cfg, c, step);
    LawfulActivity(cfg, c, n, ch.act, ch.sent);
  }

  lemma LawfulBeating(cfg: Config, c: Cluster, n: Id, step: Step)
    requires Inv(cfg, c) && Enabled(cfg, c, step) && (step == Assert(n) || step == Beat(n) || step == BeatFailed(n))
    ensures Lawful(cfg, c, Effect(cfg, c, step))
  {
    hide BallotOk, OneVotePerTerm, PeersOk, ElectionOk, Reached, Supporters, Lawful;
    assert ActOk(cfg, c.ballots, c.elected, n, c.nodes[n], c.acts[n]);
    assert StateOk(c.elected, n, c.nodes[n]) && VoteOk(c.ballots, n, c.nodes[n]);
    if c.acts[n].Beating? && c.acts[n].next < |cfg.peers[n]| {
      PeerIsOther(cfg, n, c.acts[n].next);
    }
    var ch := Effect(cfg, c, step);
    LawfulActivity(cfg, c, n, ch.act, ch.sent);
  }

  lemma StepIsLawful(cfg: Config, c: Cluster, step: Step)
    requires Inv(cfg, c) && Enabled(cfg, c, step)
    ensures Lawful(cfg, c, Effect(cfg, c, step))
  {
    hide BallotOk, OneVotePerTerm, PeersOk, StateOk, ElectionOk, MessageOk, Lawful, Supporters;
    match step
    case Expire(n) => LawfulActivity(cfg, c, n, Bidding, {});
    case Begin(n) => LawfulBegin(cfg, c, n);
    case Ask(n) => LawfulAsking(cfg, c, n, step);
    case AskFailed(n) => LawfulAsking(cfg, c, n, step);
    case Vote(m) => LawfulVote(cfg, c, m);
    case Count(n, m) => LawfulCount(cfg, c, n, m);
    case RunOut(n) => LawfulActivity(cfg, c, n, Idle, {});
    case Assert(n) => LawfulBeating(cfg, c, n, step);
    case Beat(n) => LawfulBeating(cfg, c, n, step);
    case BeatFailed(n) => LawfulBeating(cfg, c, n, step);
    case Obey(m) => LawfulObey(cfg, c, m);
    case Note(n, m) => LawfulNote(cfg, c, n, m);
    case BeatDone(n) => LawfulActivity(cfg, c, n, Idle, {});
  }

  /* ---------------- whole runs ---------------- */

  ghost predicate IsRun(cfg: Config, c: Cluster, steps: seq<Step>)
    requires c.nodes.Keys == c.acts.Keys == cfg.members == cfg.peers.Keys
    decreases steps
  {
    steps == [] ||
    (Enabled(cfg, c, steps[0]) && Effect(cfg, c, steps[0]).id in cfg.members &&
     IsRun(cfg, Commit(c, Effect(cfg, c, steps[0])), steps[1..]))
  }

  ghost function After(cfg: Config, c: Cluster, steps: seq<Step>): Cluster
    requires c.nodes.Keys == c.acts.Keys == cfg.members == cfg.peers.Keys
    requires IsRun(cfg, c, steps)
    decreases steps
  {
    if steps == [] then c else After(cfg, Commit(c, Effect(cfg, c, steps[0])), steps[1..])
  }

  lemma StartInv(cfg: Config)
    requires WellFormed(cfg)
    ensures Inv(cfg, Start(cfg))
  {
  }

  lemma {:induction false} RunKeepsInv(cfg: Config, c: Cluster, steps: seq<Step>)
    requires Inv(cfg, c) && IsRun(cfg, c, steps)
    ensures Inv(cfg, After(cfg, c, steps))
    decreases steps
  {
    if steps != [] {
      StepIsLawful(cfg, c, steps[0]);
      CommitKeepsInv(cfg, c, Effect(cfg, c, steps[0]));
      hide Enabled, Effect, BallotOk, OneVotePerTerm, StateOk, ElectionOk, MessageOk, ActOk, PeersOk, Lawful;
      RunKeepsInv(cfg, Commit(c, Effect(cfg, c, steps[0])), steps[1..]);
    }
  }

  /** Any two majorities share a member. */
  lemma MajoritiesMeet(members: set<Id>, a: set<Id>, b: set<Id>)
    requires a <= members && b <= members
    requires |a| >= |members| / 2 + 1 && |b| >= |members| / 2 + 1
    ensures exists n :: n in a && n in b
  {
    assert |a + b| + |a * b| == |a| + |b|;
    SubsetSize(a + b, members);
    assert |a * b| > 0;
    var n :| n in a * b;
  }

  lemma OneWinner(cfg: Config, c: Cluster, e: Election, f: Election)
    requires Inv(cfg, c) && e in c.elected && f in c.elected && e.term == f.term
    ensures e.winner == f.winner
  {
    hide ActOk, StateOk, MessageOk, PeersOk;
    assert ElectionOk(cfg, c.ballots, e) && ElectionOk(cfg, c.ballots, f);
    var a, b := Supporters(c.ballots, e.winner, e.term), Supporters(c.ballots, f.winner, f.term);
    assert a <= cfg.members by { SupportersAreMembers(cfg, c, e.winner, e.term); }
    assert b <= cfg.members by { SupportersAreMembers(cfg, c, f.winner, f.term); }
    MajoritiesMeet(cfg.members, a, b);
    var n :| n in a && n in b;
    assert Ballot(n, e.term, e.winner) in c.ballots && Ballot(n, f.term, f.winner) in c.ballots;
  }

  lemma SupportersAreMembers(cfg: Config, c: Cluster, n: Id, term: int)
    requires Inv(cfg, c)
    ensures Supporters(c.ballots, n, term) <= cfg.members
  {
    hide ActOk, StateOk, MessageOk, PeersOk, ElectionOk, OneVotePerTerm;
    forall b | b in c.ballots
      ensures b.voter in cfg.members
    {
      assert BallotOk(cfg, c, b);
    }
  }

  /** Election safety: along every run of a cluster of any size, with RPCs lost, delayed,
      repeated or reordered at will, at most one node ever becomes leader in a given term. */
  lemma ElectionSafety(cfg: Config, steps: seq<Step>, e: Election, f: Election)
    requires WellFormed(cfg) && IsRun(cfg, Start(cfg), steps)
    requires e in After(cfg, Start(cfg), steps).elected && f in After(cfg, Start(cfg), steps).elected
    requires e.term == f.term
    ensures e == f
  {
    hide Inv, IsRun, After, PeersOk;
    StartInv(cfg);
    RunKeepsInv(cfg, Start(cfg), steps);
    OneWinner(cfg, After(cfg, Start(cfg), steps), e, f);
  }

  /** Nodes in the same term that know a leader know the same one, and it won that term; a node
      in the leader role knows itself. */
  lemma LeaderKnowledgeAgrees(cfg: Config, steps: seq<Step>, a: Id, b: Id)
    requires WellFormed(cfg) && IsRun(cfg, Start(cfg), steps) && a in cfg.members && b in cfg.members
    ensures var c := After(cfg, Start(cfg), steps);
            && c.nodes.Keys == cfg.members
            && (c.nodes[a].role == Leader ==> c.nodes[a].leaderId == a)
            && (c.nodes[a].leaderId != "" ==> Election(c.nodes[a].term, c.nodes[a].leaderId) in c.elected)
            && (c.nodes[a].term == c.nodes[b].term && c.nodes[a].leaderId != "" && c.nodes[b].leaderId != ""
                ==> c.nodes[a].leaderId == c.nodes[b].leaderId)
  {
    hide IsRun, After, PeersOk, ActOk, MessageOk, ElectionOk, BallotOk, OneVotePerTerm;
    StartInv(cfg);
    RunKeepsInv(cfg, Start(cfg), steps);
    var c := After(cfg, Start(cfg), steps);
    assert StateOk(c.elected, a, c.nodes[a]) && StateOk(c.elected, b, c.nodes[b]);
    var e, f := Election(c.nodes[a].term, c.nodes[a].leaderId), Election(c.nodes[b].term, c.nodes[b].leaderId);
    if e in c.elected && f in c.elected && e.term == f.term {
      OneWinner(cfg, c, e, f);
    }
  }

  /** A leader is never demoted by a heartbeat of its own term: none can be on its way to it. */
  lemma LeaderKeepsItsTerm(cfg: Config, c: Cluster, m: Message)
    requires Inv(cfg, c) && Enabled(cfg, c, Obey(m)) && m.term <= c.nodes[m.to].term
    ensures c.nodes[m.to].role == Leader ==> OnAppendEntries(c.nodes[m.to], m.term, m.from).state == c.nodes[m.to]
  {
    hide ActOk, ElectionOk, BallotOk, OneVotePerTerm, PeersOk;
    assert MessageOk(cfg, c.ballots, c.elected, m);
    assert StateOk(c.elected, m.to, c.nodes[m.to]) && VoteOk(c.ballots, m.to, c.nodes[m.to]);
    if c.nodes[m.to].role == Leader && m.term == c.nodes[m.to].term {
      OneWinner(cfg, c, Election(m.term, m.from), Election(m.term, m.to));
    }
  }

  /** A node without peers never becomes leader: the role is taken only inside the peer loop. */
  lemma LonerNeverLeads(cfg: Config, steps: seq<Step>)
    requires WellFormed(cfg) && IsRun(cfg, Start(cfg), steps) && |cfg.members| < 2
    ensures After(cfg, Start(cfg), steps).elected == {}
  {
    hide IsRun, After, ActOk, MessageOk, StateOk, BallotOk, OneVotePerTerm;
    StartInv(cfg);
    RunKeepsInv(cfg, Start(cfg), steps);
    var c := After(cfg, Start(cfg), steps);
    assert forall e :: e in c.elected ==> ElectionOk(cfg, c.ballots, e);
  }

  /** No step lowers a node's term or changes a vote within a term. */
  lemma TermsOnlyGrow(cfg: Config, c: Cluster, step: Step)
    requires Inv(cfg, c) && Enabled(cfg, c, step)
    ensures var d := Commit(c, Effect(cfg, c, step));
            forall n :: n in cfg.members ==> n in d.nodes && KeepsVote(c.nodes[n], d.nodes[n])
  {
    StepIsLawful(cfg, c, step);
    hide ActOk, MessageOk, StateOk, BallotOk, OneVotePerTerm, ElectionOk, Effect, Enabled;
  }

  /** The constructor's filter turns any list that names the other members, with repetitions and
      with or without oneself, into the peer list that the safety argument needs. */
  lemma FilteredPeersOk(members: set<Id>, self: Id, configured: seq<Id>, kept: seq<Id>)
    requires (set p | p in configured) + {self} == members
    requires forall i, j :: 0 <= i < j < |kept| ==> kept[i] != kept[j]
    requires forall p :: p in kept <==> p in configured && p != self
    ensures PeersOk(members, self, kept)
  {
    assert forall p :: p in members - {self} ==> p in kept;
  }

  /* ---------------- what a node answers ---------------- */

  /** When a vote is given, said of the history alone: exactly if the request is not stale and the
      voter has voted for nobody else in its term. Then the voter is in that term and its vote is
      on record; a refused request changes nothing. */
  lemma VoteGranted(cfg: Config, c: Cluster, m: Message)
    requires Inv(cfg, c) && Enabled(cfg, c, Vote(m))
    ensures var r := OnRequestVote(c.nodes[m.to], m.term, m.from);
            && (r.reply.granted <==>
                  m.term >= c.nodes[m.to].term &&
                  forall b :: b in c.ballots && b.voter == m.to && b.term == m.term ==> b.candidate == m.from)
            && (r.reply.granted ==> r.state.term == m.term == r.reply.term && r.state.votedFor == m.from)
            && (!r.reply.granted ==> r.state == c.nodes[m.to] && r.reply.term == c.nodes[m.to].term)
  {
    hide ActOk, MessageOk, StateOk, ElectionOk, OneVotePerTerm, PeersOk;
    var s := c.nodes[m.to];
    assert VoteOk(c.ballots, m.to, s);
    assert m.from in cfg.members by { assert MessageOk(cfg, c.ballots, c.elected, m); SentByMember(cfg, c, m); }
    forall b | b in c.ballots && b.voter == m.to && b.term == m.term
      ensures m.term <= s.term && (m.term == s.term ==> b.candidate == s.votedFor != "")
    {
      assert BallotOk(cfg, c, b);
    }
    if m.term == s.term && s.votedFor != "" {
      assert Ballot(m.to, m.term, s.votedFor) in c.ballots;
    }
  }

  lemma SentByMember(cfg: Config, c: Cluster, m: Message)
    requires MessageOk(cfg, c.ballots, c.elected, m)
    ensures m.from in cfg.members
  {
  }

  /** Terms spread with every message. Who handles a vote request is in its term or a newer one. */
  lemma VoteSpreadsTerm(cfg: Config, c: Cluster, m: Message)
    requires Inv(cfg, c) && Enabled(cfg, c, Vote(m))
    ensures var s, d := c.nodes[m.to], Commit(c, Effect(cfg, c, Vote(m)));
            m.to in d.nodes && d.nodes[m.to].term == if m.term > s.term then m.term else s.term
  {
    hide ActOk, MessageOk, StateOk, VoteOk, BallotOk, ElectionOk, OneVotePerTerm, PeersOk;
  }

  /** A heartbeat that is not stale brings its term and makes its sender known as the leader. */
  lemma BeatSpreadsTerm(cfg: Config, c: Cluster, m: Message)
    requires Inv(cfg, c) && Enabled(cfg, c, Obey(m))
    ensures var s, d := c.nodes[m.to], Commit(c, Effect(cfg, c, Obey(m)));
            m.to in d.nodes && d.nodes[m.to] ==
              if m.term < s.term then s
              else State(Follower, m.term, if m.term == s.term then s.votedFor else "", m.from)
  {
    hide ActOk, MessageOk, StateOk, VoteOk, BallotOk, ElectionOk, OneVotePerTerm, PeersOk;
  }

  /** A candidate that finds a newer term in a reply gives up its bid and adopts that term. */
  lemma CandidateStepsDown(cfg: Config, c: Cluster, n: Id, m: Message)
    requires Inv(cfg, c) && Enabled(cfg, c, Count(n, m))
    ensures var s, ch := c.nodes[n], Effect(cfg, c, Count(n, m));
            s.role == Candidate && s.term == c.acts[n].term < m.reply.term ==>
              ch.id == n && ch.state == State(Follower, m.reply.term, "", "") && ch.act == Idle
  {
    hide ActOk, MessageOk, StateOk, VoteOk, BallotOk, ElectionOk, OneVotePerTerm, PeersOk;
  }

  /** So does a leader that finds one in the reply to a heartbeat. */
  lemma LeaderStepsDown(cfg: Config, c: Cluster, n: Id, m: Message)
    requires Inv(cfg, c) && Enabled(cfg, c, Note(n, m))
    ensures var s, ch := c.nodes[n], Effect(cfg, c, Note(n, m));
            s.role == Leader && s.term == c.acts[n].term < m.reply.term ==>
              ch.id == n && ch.state == State(Follower, m.reply.term, "", "") && ch.act == Idle
  {
    hide ActOk, MessageOk, StateOk, VoteOk, BallotOk, ElectionOk, OneVotePerTerm, PeersOk;
  }
}
