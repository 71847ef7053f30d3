/** Election safety from the votes alone, and from less than fresh heartbeats: a heartbeat older than a candidate's
    term does no harm as long as the candidate has granted no vote in the heartbeat's term or a later one. */
module ElectionVotes {
  import opened ElectionNode
  import opened ElectionCluster
  import opened ElectionInvariant

  /** The node hears no old heartbeat as a candidate, or none as old as the last vote it granted. */
  predicate SafeFor(n: Node, s: Step) {
    (s.Deliver? && s.m.Heartbeat? && n.role == Candidate && ActsOnHeartbeat(n, s.m)) ==>
      s.m.term >= n.term || s.m.term > n.lastVoteTerm
  }

  predicate Harmless(c: Cluster, s: Step)
    requires Enabled(c, s)
  {
    SafeFor(c.nodes[s.n], s)
  }

  ghost predicate HarmlessRun(b: seq<Cluster>, ss: seq<Step>) {
    Run(b, ss) && forall i :: 0 <= i < |ss| ==> Harmless(b[i], ss[i])
  }

  // ----- the invariant

  /** Grants never come from a term later than the voter's last vote; one of that very term is for the node it
      remembers, unless it has started an election in a later term. */
  ghost predicate Bound(v: Node, m: Message)
    requires m.ResponseVote?
  {
    && m.voteForTerm <= v.lastVoteTerm
    && (m.voteForTerm == v.lastVoteTerm ==>
          m.id == v.lastVoteFor || (v.lastVoteFor == DEFAULT_DATA && v.lastVoteTerm < v.term))
  }

  ghost predicate BoundBy(c: Cluster, m: Message) {
    m.ResponseVote? && m.voteGranted ==> m.voter in c.nodes && Bound(c.nodes[m.voter], m)
  }

  /** Counted votes were granted, and a leader was granted its term by a majority. */
  ghost predicate Counted(c: Cluster, n: NodeId)
    requires n in c.nodes
  {
    var s := c.nodes[n];
    && s.id == n && s.voteNum == |s.voters| && s.voters <= c.nodes.Keys && s.lastVoteTerm <= s.term
    && (s.role != Follower ==> forall v <- s.voters :: HasGrant(c, v, s.term, n))
    && (s.role == Leader ==> |s.voters| > c.totalNode / 2)
  }

  ghost predicate VoteInv(c: Cluster) {
    && |c.nodes.Keys| <= c.totalNode
    && (forall n <- c.nodes :: Counted(c, n))
    && (forall m <- c.net :: BoundBy(c, m))
    && OneVotePerTerm(c)
  }

  // ----- one node, one step

  predicate Grants(m: Message) {
    m.ResponseVote? && m.voteGranted
  }

  /** The vote is kept; or forgotten in a later term; or given, in a later term than any before. */
  predicate VoteMoves(n: Node, s: Step, d: Node) {
    || (KeepsVote(n, d) && (n.lastVoteFor == DEFAULT_DATA && n.lastVoteTerm < n.term ==> n.lastVoteTerm < d.term))
    || (d.lastVoteFor == DEFAULT_DATA && d.lastVoteTerm == n.lastVoteTerm < d.term)
    || (d.lastVoteFor != DEFAULT_DATA && d.lastVoteTerm == d.term >= n.term
        && (n.lastVoteFor != DEFAULT_DATA ==> d.term > n.lastVoteTerm))
  }

  predicate GrantsWell(d: Node, out: seq<Message>) {
    forall m <- out | Grants(m) ::
      m.voter == d.id && m.voteForTerm == d.lastVoteTerm && m.id == d.lastVoteFor && d.lastVoteFor != DEFAULT_DATA
  }

  predicate CountMoves(total: nat, n: Node, s: Step, d: Node) {
    || d.role == Follower
    || (n.role == d.role && d.term == n.term && d.voters == n.voters)
    || (d.role == Candidate && d.voters == {})
    || (&& n.role == Candidate && s.Deliver? && s.m.ResponseVote? && IsGrant(s.m, s.m.voter, n.term, n.id)
        && d.term == n.term && d.voters == n.voters + {s.m.voter} && (d.role == Leader ==> d.voteNum > total / 2))
  }

  ghost predicate Voted(total: nat, n: Node, s: Step, o: Outcome) {
    var d := o.node;
    && d.id == n.id && d.lastVoteTerm <= d.term && d.voteNum == |d.voters|
    && (d.voters == n.voters || d.voters == {} || (s.Deliver? && Grants(s.m) && d.voters == n.voters + {s.m.voter}))
    && VoteMoves(n, s, d) && GrantsWell(d, o.out) && CountMoves(total, n, s, d)
  }

  lemma NodeVotes(total: nat, n: Node, s: Step)
    requires n.voteNum == |n.voters| && n.lastVoteTerm <= n.term && LeaderOnly(n, s) && SafeFor(n, s)
    ensures Voted(total, n, s, React(total, n, s))
  {
    if s.Deliver? {
      match n.role {
        case Follower => FollowerVotes(total, n, s);
        case Candidate => CandidateVotes(total, n, s);
        case Leader =>
      }
    }
  }

  lemma FollowerVotes(total: nat, n: Node, s: Step)
    requires s.Deliver? && n.role == Follower && n.voteNum == |n.voters| && n.lastVoteTerm <= n.term
    ensures Voted(total, n, s, FollowerReceive(n, s.m))
  {
  }

  lemma CandidateVotes(total: nat, n: Node, s: Step)
    requires s.Deliver? && n.role == Candidate && n.voteNum == |n.voters| && n.lastVoteTerm <= n.term && SafeFor(n, s)
    ensures Voted(total, n, s, CandidateReceive(total, n, s.m))
  {
  }

  // ----- every harmless step

  lemma KeepsBound(v: Node, s: Step, d: Node, m: Message)
    requires m.ResponseVote? && Bound(v, m) && VoteMoves(v, s, d) && v.lastVoteTerm <= v.term
    ensures Bound(d, m)
  {
  }

  /** Two grants of one voter for one term name the same node. */
  lemma KeepsOneVote(c: Cluster, s: Step, o: Outcome)
    requires VoteInv(c) && Enabled(c, s) && Voted(c.totalNode, c.nodes[s.n], s, o)
    ensures OneVotePerTerm(Extend(c, s.n, o)) && forall m <- Extend(c, s.n, o).net :: BoundBy(Extend(c, s.n, o), m)
  {
    var d := Extend(c, s.n, o);
    assert Counted(c, s.n);
    forall m <- d.net ensures BoundBy(d, m) {
      if m in c.net && Grants(m) && m.voter == s.n {
        assert BoundBy(c, m);
        KeepsBound(c.nodes[s.n], s, o.node, m);
      } else if m in c.net {
        assert BoundBy(c, m);
      }
    }
    forall m1 <- d.net, m2 <- d.net | Grants(m1) && Grants(m2) && m1.voter == m2.voter && m1.voteForTerm == m2.voteForTerm
      ensures m1.id == m2.id
    {
      assert BoundBy(d, m1) && BoundBy(d, m2);
    }
  }

  lemma KeepsCounted(c: Cluster, s: Step, o: Outcome, n: NodeId)
    requires VoteInv(c) && Enabled(c, s) && Voted(c.totalNode, c.nodes[s.n], s, o) && n in c.nodes
    ensures Counted(Extend(c, s.n, o), n)
  {
    var d := Extend(c, s.n, o);
    assert Counted(c, n) && Counted(c, s.n);
    if s.Deliver? {
      assert BoundBy(c, s.m);
    }
    forall v, t, id | HasGrant(c, v, t, id) ensures HasGrant(d, v, t, id) {
      var m :| m in c.net && IsGrant(m, v, t, id);
      assert m in d.net;
    }
    if s.Deliver? && Grants(s.m) {
      assert HasGrant(c, s.m.voter, s.m.voteForTerm, s.m.id);
    }
  }

  lemma StepKeepsVotes(c: Cluster, s: Step)
    requires VoteInv(c) && Enabled(c, s) && Harmless(c, s)
    ensures VoteInv(Apply(c, s))
  {
    var o := React(c.totalNode, c.nodes[s.n], s);
    assert Counted(c, s.n);
    NodeVotes(c.totalNode, c.nodes[s.n], s);
    KeepsOneVote(c, s, o);
    forall n <- c.nodes ensures Counted(Apply(c, s), n) {
      KeepsCounted(c, s, o, n);
    }
  }

  // ----- whole runs

  lemma {:induction false} RunKeepsVotes(b: seq<Cluster>, ss: seq<Step>, i: nat)
    requires HarmlessRun(b, ss) && i < |b|
    ensures VoteInv(b[i])
  {
    if i > 0 {
      RunKeepsVotes(b, ss, i - 1);
      StepKeepsVotes(b[i - 1], ss[i - 1]);
    }
  }

  lemma {:induction false} NetGrows(b: seq<Cluster>, ss: seq<Step>, i: nat, j: nat)
    requires Run(b, ss) && i <= j < |b|
    ensures b[i].net <= b[j].net && b[i].nodes.Keys == b[j].nodes.Keys && b[i].totalNode == b[j].totalNode
  {
    if i < j {
      NetGrows(b, ss, i, j - 1);
    }
  }

  lemma Backed(b: seq<Cluster>, ss: seq<Step>, i: nat, n: NodeId)
    requires HarmlessRun(b, ss) && i < |b| && n in b[i].nodes && b[i].nodes[n].role == Leader
    ensures var l, c := b[i].nodes[n], b[|b| - 1];
            && |l.voters| > c.totalNode / 2 && l.voters <= c.nodes.Keys
            && forall v <- l.voters :: HasGrant(c, v, l.term, n)
  {
    RunKeepsVotes(b, ss, i);
    NetGrows(b, ss, i, |b| - 1);
    assert Counted(b[i], n);
    var l, c := b[i].nodes[n], b[|b| - 1];
    forall v <- l.voters ensures HasGrant(c, v, l.term, n) {
      assert HasGrant(b[i], v, l.term, n);
      var m :| m in b[i].net && IsGrant(m, v, l.term, n);
      assert m in c.net;
    }
  }

  /** At most one leader per term, at any two moments of a run in which no candidate acts on a heartbeat that is older
      than its term and not later than the last vote it granted. */
  lemma OneLeaderPerTerm(b: seq<Cluster>, ss: seq<Step>, i: nat, n: NodeId, j: nat, m: NodeId)
    requires HarmlessRun(b, ss) && i < |b| && j < |b| && n in b[i].nodes && m in b[j].nodes
    requires b[i].nodes[n].role == Leader && b[j].nodes[m].role == Leader
    requires b[i].nodes[n].term == b[j].nodes[m].term
    ensures n == m
  {
    var c, t := b[|b| - 1], b[i].nodes[n].term;
    RunKeepsVotes(b, ss, |b| - 1);
    Backed(b, ss, i, n);
    Backed(b, ss, j, m);
    QuorumsMeet(c.totalNode, c.nodes.Keys, b[i].nodes[n].voters, b[j].nodes[m].voters);
    var v :| v in b[i].nodes[n].voters && v in b[j].nodes[m].voters;
    assert HasGrant(c, v, t, n) && HasGrant(c, v, t, m);
  }
}
