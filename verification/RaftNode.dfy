/** One member of an election cluster: its state, and what it does under its lock when an RPC
    arrives, an election starts, or a reply comes back. */
module RaftNode {

  /** A "host:port"; the empty string stands for "none". */
  type Id = string

  datatype Role = Follower | Candidate | Leader

  datatype State = State(role: Role, term: int, votedFor: Id, leaderId: Id)

  const INITIAL: State := State(Follower, 0, "", "")

  datatype Reply = Reply(term: int, granted: bool)

  datatype Answer = Answer(state: State, reply: Reply)

  function BecomeFollower(term: int): State {
    State(Follower, term, "", "")
  }

  /** A vote is granted at most once per term, and only in the voter's current term. */
  function OnRequestVote(s: State, term: int, candidate: Id): Answer {
    var s1 := if term > s.term then BecomeFollower(term) else s;
    if term == s1.term && (s1.votedFor == "" || s1.votedFor == candidate)
    then Answer(s1.(votedFor := candidate), Reply(s1.term, true))
    else Answer(s1, Reply(s1.term, false))
  }

  function OnAppendEntries(s: State, term: int, leader: Id): Answer {
    if term >= s.term
    then
      var vote := if term > s.term then "" else s.votedFor;
      Answer(State(Follower, term, vote, leader), Reply(term, true))
    else Answer(s, Reply(s.term, false))
  }

  function OnBeginElection(s: State, self: Id): State {
    State(Candidate, s.term + 1, self, "")
  }

  datatype Verdict = Ongoing | Abandoned | Won

  datatype Tally = Tally(state: State, votes: nat, verdict: Verdict)

  /** The re-check after each reply: a node that is no longer a candidate of the term it asked
      in drops the election, whatever the reply says. */
  function OnVoteReply(s: State, self: Id, term: int, votes: nat, majority: nat, reply: Reply): Tally {
    if s.term != term || s.role != Candidate then Tally(s, votes, Abandoned)
    else if reply.term > s.term then Tally(BecomeFollower(reply.term), votes, Abandoned)
    else if reply.granted && votes + 1 >= majority
    then Tally(s.(role := Leader, leaderId := self), votes + 1, Won)
    else Tally(s, if reply.granted then votes + 1 else votes, Ongoing)
  }

  datatype BeatOutcome = BeatOutcome(state: State, goOn: bool)

  function OnBeatReply(s: State, term: int, replyTerm: int): BeatOutcome {
    if s.role != Leader || s.term != term then BeatOutcome(s, false)
    else if replyTerm > s.term then BeatOutcome(BecomeFollower(replyTerm), false)
    else BeatOutcome(s, true)
  }

  /** More than half of a cluster with this many peers besides oneself. */
  function Majority(peers: nat): nat {
    (peers + 1) / 2 + 1
  }

  class Node {
    const selfId: Id
    const peers: seq<Id>
    var role: Role
    var currentTerm: int
    var votedFor: Id
    var leaderId: Id

    function Current(): State
      reads this
    {
      State(role, currentTerm, votedFor, leaderId)
    }

    /** Keep each configured peer once and never oneself. */
    static method FilterPeers(selfId: Id, configured: seq<Id>) returns (kept: seq<Id>)
      ensures forall i, j :: 0 <= i < j < |kept| ==> kept[i] != kept[j]
      ensures forall p :: p in kept <==> p in configured && p != selfId
    {
      kept := [];
      for n := 0 to |configured|
        invariant forall i, j :: 0 <= i < j < |kept| ==> kept[i] != kept[j]
        invariant forall p :: p in kept <==> p in configured[..n] && p != selfId
      {
        if configured[n] != selfId && configured[n] !in kept {
          kept := kept + [configured[n]];
        }
        assert configured[..n + 1] == configured[..n] + [configured[n]];
      }
    }

    constructor (selfId: Id, configured: seq<Id>)
      ensures Current() == INITIAL && this.selfId == selfId
      ensures forall i, j :: 0 <= i < j < |peers| ==> peers[i] != peers[j]
      ensures forall p :: p in peers <==> p in configured && p != selfId
    {
      var kept := FilterPeers(selfId, configured);
      this.selfId, peers := selfId, kept;
      role, currentTerm, votedFor, leaderId := Follower, 0, "", "";
    }

    method StepDown(term: int)
      modifies this
      ensures Current() == BecomeFollower(term)
    {
      role, currentTerm := Follower, term;
      votedFor, leaderId := "", "";
    }

    method HandleRequestVote(term: int, candidate: Id) returns (reply: Reply)
      modifies this
      ensures Answer(Current(), reply) == OnRequestVote(old(Current()), term, candidate)
    {
      if term > currentTerm {
        StepDown(term);
      }
      var granted := false;
      if term == currentTerm && (votedFor == "" || votedFor == candidate) {
        votedFor := candidate;
        granted := true;
      }
      reply := Reply(currentTerm, granted);
    }

    method HandleAppendEntries(term: int, leader: Id) returns (reply: Reply)
      modifies this
      ensures Answer(Current(), reply) == OnAppendEntries(old(Current()), term, leader)
    {
      var success := false;
      if term >= currentTerm {
        if term > currentTerm {
          currentTerm, votedFor := term, "";
        }
        role, leaderId := Follower, leader;
        success := true;
      }
      reply := Reply(currentTerm, success);
    }

    method BeginElection() returns (term: int)
      modifies this
      ensures Current() == OnBeginElection(old(Current()), selfId) && term == currentTerm
    {
      role, currentTerm := Candidate, currentTerm + 1;
      term := currentTerm;
      votedFor, leaderId := selfId, "";
    }

    /** One reply of the election loop, handled under the lock. */
    method CountReply(term: int, votes: nat, reply: Reply) returns (votes': nat, verdict: Verdict)
      modifies this
      ensures Tally(Current(), votes', verdict) ==
                OnVoteReply(old(Current()), selfId, term, votes, Majority(|peers|), reply)
    {
      votes' := votes;
      if currentTerm != term || role != Candidate {
        return votes, Abandoned;
      }
      if reply.term > currentTerm {
        StepDown(reply.term);
        return votes, Abandoned;
      }
      if reply.granted {
        votes' := votes + 1;
        if votes' >= Majority(|peers|) {
          role, leaderId := Leader, selfId;
          return votes', Won;
        }
      }
      verdict := Ongoing;
    }

    /** One reply of the heartbeat loop, handled under the lock. */
    method NoteBeatReply(term: int, replyTerm: int) returns (goOn: bool)
      modifies this
      ensures BeatOutcome(Current(), goOn) == OnBeatReply(old(Current()), term, replyTerm)
    {
      if role != Leader || currentTerm != term {
        return false;
      }
      if replyTerm > currentTerm {
        StepDown(replyTerm);
        return false;
      }
      return true;
    }
  }
}
