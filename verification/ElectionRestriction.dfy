/** The election restriction over whole runs: a majority voted for each winner while holding no later log than it. */
module ElectionRestriction {
  import opened ElectionNode
  import opened ElectionCluster
  import opened ElectionInvariant
  import opened ElectionPreservation
  import opened ElectionSafety
  import ElectionVotes
  import ElectionBehaviour

  /** At step k the node gave its vote, on a request of that node and term, when it held no later log than asked. */
  predicate VotesAt(b: seq<Cluster>, ss: seq<Step>, k: nat, v: NodeId, id: NodeId, term: int)
    requires k < |ss| < |b|
  {
    && ss[k].Deliver? && ss[k].n == v && v in b[k].nodes && ss[k].m in b[k].net
    && ss[k].m.RequestVote? && ss[k].m.id == id && ss[k].m.term == term
    && ElectionBehaviour.NotLater(b[k].nodes[v], ss[k].m.prevLogIndex, ss[k].m.prevLogTerm, ss[k].m.commitId)
  }

  ghost predicate VotedFairly(b: seq<Cluster>, ss: seq<Step>, i: nat, v: NodeId, id: NodeId, term: int)
    requires i <= |ss| < |b|
  {
    exists k: nat | k < i :: VotesAt(b, ss, k, v, id, term)
  }

  ghost predicate VoteTraced(b: seq<Cluster>, ss: seq<Step>, i: nat, v: NodeId)
    requires i <= |ss| < |b| && v in b[i].nodes
  {
    var n := b[i].nodes[v];
    n.id == v && (n.lastVoteFor != DEFAULT_DATA ==>
                    n.lastVoteFor >= 0 && VotedFairly(b, ss, i, v, n.lastVoteFor, n.lastVoteTerm))
  }

  /** A node's vote, and every grant it sends, comes from the step at which it gave that vote. */
  ghost predicate VotesTraced(b: seq<Cluster>, ss: seq<Step>, i: nat)
    requires i <= |ss| < |b|
  {
    && (forall v <- b[i].nodes :: VoteTraced(b, ss, i, v))
    && (forall m <- b[i].net | m.ResponseVote? && m.voteGranted :: VotedFairly(b, ss, i, m.voter, m.id, m.voteForTerm))
  }

  predicate GivesVote(n: Node, s: Step, d: Node) {
    && s.Deliver? && s.m.RequestVote? && d.lastVoteFor == s.m.id && d.lastVoteTerm == s.m.term
    && ElectionBehaviour.NotLater(n, s.m.prevLogIndex, s.m.prevLogTerm, s.m.commitId)
  }

  lemma VoteIsKeptOrGiven(total: nat, n: Node, s: Step)
    ensures var o := React(total, n, s);
            && o.node.id == n.id
            && (KeepsVote(n, o.node) || o.node.lastVoteFor == DEFAULT_DATA || GivesVote(n, s, o.node))
            && (forall m <- o.out | m.ResponseVote? && m.voteGranted ::
                  m.voter == n.id && o.node.lastVoteFor == m.id && o.node.lastVoteTerm == m.voteForTerm)
  {
    if s.Deliver? && s.m.RequestVote? && n.role != Leader {
      ElectionBehaviour.GrantsExactly(total, n, s.m);
    }
  }

  lemma StillVotedFairly(b: seq<Cluster>, ss: seq<Step>, i: nat, v: NodeId, id: NodeId, term: int)
    requires i < |ss| < |b| && VotedFairly(b, ss, i, v, id, term)
    ensures VotedFairly(b, ss, i + 1, v, id, term)
  {
    var k: nat :| k < i && VotesAt(b, ss, k, v, id, term);
  }

  lemma NodeTraced(b: seq<Cluster>, ss: seq<Step>, i: nat, v: NodeId)
    requires Run(b, ss) && i < |ss| && VotesTraced(b, ss, i) && v in b[i].nodes
    ensures v in b[i + 1].nodes && VoteTraced(b, ss, i + 1, v)
  {
    var n := b[i].nodes[v];
    assert VoteTraced(b, ss, i, v);
    if v == ss[i].n {
      VoteIsKeptOrGiven(b[i].totalNode, n, ss[i]);
      var d := b[i + 1].nodes[v];
      if GivesVote(n, ss[i], d) {
        assert VotesAt(b, ss, i, v, d.lastVoteFor, d.lastVoteTerm);
      } else if d.lastVoteFor != DEFAULT_DATA {
        StillVotedFairly(b, ss, i, v, n.lastVoteFor, n.lastVoteTerm);
      }
    } else if n.lastVoteFor != DEFAULT_DATA {
      StillVotedFairly(b, ss, i, v, n.lastVoteFor, n.lastVoteTerm);
    }
  }

  lemma {:induction false} RunTracesVotes(b: seq<Cluster>, ss: seq<Step>, i: nat)
    requires Run(b, ss) && i <= |ss|
    ensures VotesTraced(b, ss, i)
  {
    if i > 0 {
      RunTracesVotes(b, ss, i - 1);
      TracesOneMore(b, ss, i - 1);
    }
  }

  lemma TracesOneMore(b: seq<Cluster>, ss: seq<Step>, i: nat)
    requires Run(b, ss) && i < |ss| && VotesTraced(b, ss, i)
    ensures VotesTraced(b, ss, i + 1)
  {
    assert b[i + 1] == Apply(b[i], ss[i]);
    var j := i + 1;
    forall v <- b[j].nodes ensures VoteTraced(b, ss, j, v) {
      NodeTraced(b, ss, i, v);
    }
    forall m <- b[j].net | m.ResponseVote? && m.voteGranted ensures VotedFairly(b, ss, j, m.voter, m.id, m.voteForTerm) {
      if m in b[i].net {
        StillVotedFairly(b, ss, i, m.voter, m.id, m.voteForTerm);
      } else {
        VoteIsKeptOrGiven(b[i].totalNode, b[i].nodes[ss[i].n], ss[i]);
        NodeTraced(b, ss, i, ss[i].n);
      }
    }
  }

  /** Every grant was earned: whoever sent it gave that vote when it held no later log than it was asked for. */
  lemma GrantWasFair(b: seq<Cluster>, ss: seq<Step>, i: nat, m: Message)
    requires Run(b, ss) && i <= |ss| && m in b[i].net && m.ResponseVote? && m.voteGranted
    ensures exists k: nat | k < i :: VotesAt(b, ss, k, m.voter, m.id, m.voteForTerm)
  {
    RunTracesVotes(b, ss, i);
  }

  // ----- what the winner asked with is what it wins with

  /** A candidate's requests of its term describe its log. */
  ghost predicate AsksForItself(c: Cluster, n: NodeId)
    requires n in c.nodes
  {
    c.nodes[n].role == Candidate ==>
      forall m <- c.net | m.RequestVote? && m.id == n && m.term == c.nodes[n].term :: m == Ask(c.nodes[n])
  }

  lemma StepAsks(c: Cluster, s: Step, n: NodeId)
    requires Inv(c) && Enabled(c, s) && Fresh(c, s) && n in c.nodes && AsksForItself(c, n)
    ensures AsksForItself(Apply(c, s), n)
  {
    var x, o := c.nodes[s.n], React(c.totalNode, c.nodes[s.n], s);
    assert NodeOk(c, s.n) && NodeOk(c, n);
    StepIsStepped(c, s);
    OwnRequests(c.totalNode, x, s);
    var d := Apply(c, s);
    forall m <- d.net | m.RequestVote? && m.id == n && m.term == d.nodes[n].term && d.nodes[n].role == Candidate
      ensures m == Ask(d.nodes[n])
    {
      if m in c.net {
        assert RequestOk(c, m);
      }
    }
  }

  lemma OwnRequests(total: nat, n: Node, s: Step)
    requires LeaderOnly(n, s)
    ensures var o := React(total, n, s);
            && (forall m <- o.out | m.RequestVote? :: o.node.role == Candidate && m == Ask(o.node) && m.id == n.id)
            && (n.role == Candidate && o.node.role == Candidate ==>
                  o.node.term > n.term || (o.node.term == n.term && Ask(o.node) == Ask(n)))
  {
  }

  lemma {:induction false} RunAsks(b: seq<Cluster>, ss: seq<Step>, i: nat, n: NodeId)
    requires FreshRun(b, ss) && i < |b| && n in b[i].nodes
    ensures AsksForItself(b[i], n)
  {
    if i > 0 {
      assert n in b[i - 1].nodes by {
        ElectionVotes.NetGrows(b, ss, i - 1, i);
      }
      RunAsks(b, ss, i - 1, n);
      AsksOneMore(b, ss, i - 1, n);
    }
  }

  lemma AsksOneMore(b: seq<Cluster>, ss: seq<Step>, i: nat, n: NodeId)
    requires FreshRun(b, ss) && i < |ss| && n in b[i].nodes && AsksForItself(b[i], n)
    ensures n in b[i + 1].nodes && AsksForItself(b[i + 1], n)
  {
    FreshRunInv(b, ss, i);
    StepAsks(b[i], ss[i], n);
  }

  /** Each of the majority that elected a winner gave it its vote at a moment when it had no log, or its tag was not
      later than the winner's (or had the same index), and it held no more updates under a tag that was not later. */
  lemma WinnerIsNotBehind(b: seq<Cluster>, ss: seq<Step>, i: nat)
    requires FreshRun(b, ss) && i < |ss| && WinsAt(b, ss, i)
    ensures var w := b[i + 1].nodes[ss[i].n];
            && |w.voters| > b[0].totalNode / 2
            && forall v <- w.voters ::
                 exists k: nat | k < i ::
                   && VotesAt(b, ss, k, v, w.id, w.term)
                   && ElectionBehaviour.NotLater(b[k].nodes[v], w.prevLogIndex, w.prevLogTerm, w.commitId)
  {
    var c, n := b[i], ss[i].n;
    var w := b[i + 1].nodes[n];
    WinnerBackedByMajority(b, ss, i);
    FreshRunInv(b, ss, i);
    StepIsStepped(c, ss[i]);
    RunAsks(b, ss, i, n);
    assert NodeOk(c, n);
    forall v <- w.voters
      ensures exists k: nat | k < i ::
                && VotesAt(b, ss, k, v, w.id, w.term)
                && ElectionBehaviour.NotLater(b[k].nodes[v], w.prevLogIndex, w.prevLogTerm, w.commitId)
    {
      var g :| g in c.net && GrantFor(g, v, w);
      GrantWasFair(b, ss, i, g);
      var k: nat :| k < i && VotesAt(b, ss, k, v, w.id, w.term);
      ElectionVotes.NetGrows(b, ss, k, i);
      assert ss[k].m == Ask(c.nodes[n]);
    }
  }
}
