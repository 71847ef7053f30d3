/** The shared `state` object and the handlers that update it in place, each proved to do exactly what
    the functions of ElectionNode say. */
module ElectionManager {
  import opened ElectionNode
  import ElectionBehaviour

  class Manager {
    const id: NodeId
    const totalNode: nat
    var role: Role
    var term: int
    var leaderId: NodeId
    var commitId: int
    var lastVoteTerm: int
    var lastVoteFor: int
    var voteNum: nat
    var voters: set<NodeId>
    var prevLogIndex: int
    var prevLogTerm: int
    var accepted: seq<Update>

    function State(): Node
      reads this
    {
      Node(id, role, term, leaderId, commitId, lastVoteTerm, lastVoteFor, voteNum, voters, prevLogIndex, prevLogTerm, accepted)
    }

    constructor (id: NodeId, totalNode: nat)
      ensures State() == NewNode(id) && this.totalNode == totalNode
    {
      this.id, this.totalNode := id, totalNode;
      role, term, leaderId, commitId := Follower, DEFAULT_DATA, 0, DEFAULT_DATA;
      lastVoteTerm, lastVoteFor, voteNum, voters := DEFAULT_DATA, DEFAULT_DATA, 0, {};
      prevLogIndex, prevLogTerm, accepted := DEFAULT_DATA, DEFAULT_DATA, [];
    }

    /** Is this node's log later than the one described, by term or by number of updates? */
    method IsAhead(theirIndex: int, theirTerm: int, theirCommit: int) returns (byTerm: bool, byCommit: bool)
      ensures byTerm == TermAhead(State(), theirIndex, theirTerm)
      ensures byCommit == CommitAhead(State(), theirTerm, theirCommit)
      ensures byTerm || byCommit <==> !ElectionBehaviour.NotLater(State(), theirIndex, theirTerm, theirCommit)
      ensures byTerm ==> prevLogIndex != theirIndex && prevLogTerm > theirTerm
    {
      byTerm, byCommit := false, false;
      if prevLogIndex != DEFAULT_DATA {
        var mine := prevLogTerm;
        if prevLogIndex == theirIndex {
          mine := theirTerm;
        }
        byTerm := mine > theirTerm;
        byCommit := prevLogTerm <= theirTerm && commitId > theirCommit;
      }
    }

    /** The last part of both vote handlers: refuse to a node that is behind, otherwise vote for it. */
    method Decide(m: Message) returns (out: seq<Message>)
      requires m.RequestVote?
      modifies this
      ensures var v := old(State());
              if !ElectionBehaviour.NotLater(v, m.prevLogIndex, m.prevLogTerm, m.commitId)
              then State() == v && out == [Response(v, m, false)]
              else State() == v.(lastVoteTerm := m.term, lastVoteFor := m.id, term := m.term) && out == [Response(State(), m, true)]
    {
      var byTerm, byCommit := IsAhead(m.prevLogIndex, m.prevLogTerm, m.commitId);
      if byTerm || byCommit {
        return [ResponseVote(false, term, m.id, commitId, m.term, id)];
      }
      lastVoteTerm := m.term;
      lastVoteFor := m.id;
      term := m.term;
      out := [ResponseVote(true, term, m.id, commitId, m.term, id)];
    }

    method FollowerOnMessage(m: Message) returns (out: seq<Message>)
      requires role == Follower
      modifies this
      ensures Outcome(State(), out) == FollowerReceive(old(State()), m)
    {
      out := [];
      if m.InstallSnapshot? {
        if m.followerId != id || m.term < term || m.commitId < commitId {
          return;
        }
        commitId := m.commitId;
        term := m.term;
        prevLogIndex := m.commitId;
        prevLogTerm := m.term;
        accepted := m.runtime;
      } else if m.AppendEntry? {
        if (leaderId != 0 && leaderId != m.id) || term > m.term {
          return;
        }
        leaderId := m.id;
        term := m.term;
        if prevLogIndex != DEFAULT_DATA && prevLogTerm == m.prevLogTerm && prevLogIndex == m.prevLogIndex {
          commitId := commitId + 1;
          prevLogIndex := commitId;
          prevLogTerm := m.term;
          accepted := accepted + [m.update];
        }
      } else if m.Heartbeat? {
        if (leaderId != 0 && leaderId != m.id) || term > m.term {
          return;
        }
        var byTerm, _ := IsAhead(m.prevLogIndex, m.prevLogTerm, m.commitId);
        if byTerm {
          return;
        }
        leaderId := m.id;
        term := m.term;
      } else if m.RequestVote? {
        if (leaderId != 0 && leaderId != m.id) || m.term < term {
          return [ResponseVote(false, term, m.id, commitId, m.term, id)];
        }
        if m.term > term {
          term := m.term;
        }
        if lastVoteFor != DEFAULT_DATA && lastVoteTerm == m.term {
          if lastVoteFor == m.id {
            out := [ResponseVote(true, term, m.id, commitId, m.term, id)];
          }
          return;
        }
        out := Decide(m);
      }
    }

    method StartCandidacy() returns (out: seq<Message>)
      modifies this
      ensures Outcome(State(), out) == StartElection(old(State()))
    {
      leaderId := 0;
      role := Candidate;
      term := term + 1;
      lastVoteFor := DEFAULT_DATA;
      voteNum := 0;
      voters := {};
      out := [RequestVote(id, term, commitId, prevLogIndex, prevLogTerm)];
    }

    method BecomeFollower(newTerm: int)
      modifies this
      ensures State() == BackToFollower(old(State()), newTerm)
    {
      leaderId := 0;
      term := newTerm;
      role := Follower;
    }

    method CandidateOnMessage(m: Message) returns (out: seq<Message>)
      requires role == Candidate
      modifies this
      ensures Outcome(State(), out) == CandidateReceive(totalNode, old(State()), m)
    {
      out := [];
      if m.RequestVote? {
        if m.term < term {
          return [ResponseVote(false, term, m.id, commitId, m.term, id)];
        }
        if m.term > term {
          BecomeFollower(m.term);
        }
        if lastVoteFor != DEFAULT_DATA && lastVoteTerm == m.term {
          return [ResponseVote(lastVoteFor == m.id, term, m.id, commitId, m.term, id)];
        }
        out := Decide(m);
      } else if m.ResponseVote? {
        if m.term > term && m.id == id && m.voteForTerm == term {
          BecomeFollower(m.term);
          return;
        }
        if m.voteGranted && m.voteForTerm == term && m.id == id && m.voter !in voters {
          voters := voters + {m.voter};
          voteNum := voteNum + 1;
          if voteNum > totalNode / 2 {
            leaderId := 0;
            role := Leader;
            out := [Heartbeat(id, term, commitId, prevLogIndex, prevLogTerm)];
          }
        }
      } else if m.Heartbeat? {
        var byTerm, byCommit := IsAhead(m.prevLogIndex, m.prevLogTerm, m.commitId);
        if !byTerm && !byCommit {
          BecomeFollower(m.term);
        }
      }
    }

    method LeaderOnMessage(m: Message) returns (out: seq<Message>)
      requires role == Leader
      modifies this
      ensures Outcome(State(), out) == LeaderReceive(old(State()), m)
    {
      out := [];
      if m.SnapshotRequest? {
        if m.id == id || m.leaderId != id {
          return;
        }
        out := [InstallSnapshot(id, term, commitId, m.id, accepted)];
      } else if m.Heartbeat? {
        if m.id != id && m.term > term {
          BecomeFollower(m.term);
        }
      }
    }

    /** A change of the leader's runtime data: count it, publish it with the tag of the entry before it, then retag. */
    method RegisterDataUpdate(u: Update) returns (out: seq<Message>)
      requires role == Leader
      modifies this
      ensures Outcome(State(), out) == PublishUpdate(old(State()), u)
    {
      accepted := accepted + [u];
      commitId := commitId + 1;
      out := [AppendEntry(id, term, commitId, prevLogIndex, prevLogTerm, u)];
      prevLogIndex := commitId;
      prevLogTerm := term;
    }

    /** The role's handler for one message, as it runs once the mutex is held. */
    method OnTopicMessage(m: Message) returns (out: seq<Message>)
      modifies this
      ensures Outcome(State(), out) == Receive(totalNode, old(State()), m)
    {
      match role {
        case Follower => out := FollowerOnMessage(m);
        case Candidate => out := CandidateOnMessage(m);
        case Leader => out := LeaderOnMessage(m);
      }
    }

    /** The loss of the leader's heartbeat, the end of an election, or a leader that no longer hears itself. */
    method OnTimeout() returns (out: seq<Message>)
      modifies this
      ensures Outcome(State(), out) == Timeout(old(State()))
    {
      if role == Leader {
        BecomeFollower(term);
        out := [];
      } else {
        out := StartCandidacy();
      }
    }
  }
}
