/** What every step of the cluster keeps, provided candidates act only on fresh heartbeats. */
module ElectionInvariant {
  import opened ElectionNode
  import opened ElectionCluster

  // ----- local facts

  ghost predicate NodeOk(c: Cluster, n: NodeId)
    requires n in c.nodes
  {
    var s := c.nodes[n];
    && s.id == n
    && s.voteNum == |s.voters|
    && s.voters <= c.nodes.Keys
    && s.lastVoteTerm <= s.term
  }

  ghost predicate NodesOk(c: Cluster) {
    && |c.nodes.Keys| <= c.totalNode
    && forall n <- c.nodes :: NodeOk(c, n)
  }

  // ----- votes

  predicate IsGrant(m: Message, voter: NodeId, term: int, id: NodeId) {
    m.ResponseVote? && m.voteGranted && m.voter == voter && m.voteForTerm == term && m.id == id
  }

  ghost predicate HasGrant(c: Cluster, voter: NodeId, term: int, id: NodeId) {
    exists m <- c.net :: IsGrant(m, voter, term, id)
  }

  /** A granted vote is remembered by its voter for as long as the voter stays in that term. */
  ghost predicate GrantOk(c: Cluster, m: Message)
    requires m.ResponseVote?
  {
    && m.voter in c.nodes && m.id in c.nodes
    && var v := c.nodes[m.voter];
    && m.voteForTerm <= v.term
    && (m.voteForTerm == v.term ==> v.lastVoteTerm == v.term && v.lastVoteFor == m.id)
    && (m.commitId <= c.nodes[m.id].commitId || m.voteForTerm in c.reigns)
  }

  ghost predicate RequestOk(c: Cluster, m: Message)
    requires m.RequestVote?
  {
    && m.id in c.nodes
    && DEFAULT_DATA <= m.commitId == m.prevLogIndex
    && m.term <= c.nodes[m.id].term
    && m.commitId <= c.nodes[m.id].commitId
  }

  ghost predicate VotesOk(c: Cluster) {
    && (forall m <- c.net | m.ResponseVote? && m.voteGranted :: GrantOk(c, m))
    && (forall m <- c.net | m.RequestVote? :: RequestOk(c, m))
  }

  /** No voter ever grants two different nodes the same term. */
  ghost predicate OneVotePerTerm(c: Cluster) {
    forall m1 <- c.net, m2 <- c.net ::
      (m1.ResponseVote? && m2.ResponseVote? && m1.voteGranted && m2.voteGranted &&
       m1.voter == m2.voter && m1.voteForTerm == m2.voteForTerm) ==> m1.id == m2.id
  }

  /** Until its term has a winner, a voter holds no more updates than the node it voted for. */
  ghost predicate Behind(c: Cluster, v: Node) {
    v.lastVoteFor != DEFAULT_DATA && v.lastVoteTerm == v.term ==>
      v.lastVoteFor in c.nodes && (v.term in c.reigns || v.commitId <= c.nodes[v.lastVoteFor].commitId)
  }

  ghost predicate VotersBehind(c: Cluster) {
    forall n <- c.nodes :: Behind(c, c.nodes[n])
  }

  ghost predicate CountedVotes(c: Cluster) {
    forall n <- c.nodes, v <- c.nodes[n].voters ::
      c.nodes[n].role == Candidate ==> HasGrant(c, v, c.nodes[n].term, n)
  }

  // ----- leaders

  ghost predicate ReignOk(c: Cluster, t: int)
    requires t in c.reigns
  {
    var r := c.reigns[t];
    && r.leader in c.nodes
    && r.backers <= c.nodes.Keys
    && |r.backers| > c.totalNode / 2
    && (forall v <- r.backers :: HasGrant(c, v, t, r.leader))
    && t <= c.nodes[r.leader].term
    && (t == c.nodes[r.leader].term ==> c.nodes[r.leader].role != Candidate)
  }

  ghost predicate ReignsOk(c: Cluster) {
    forall t <- c.reigns :: ReignOk(c, t)
  }

  ghost predicate LeadersOk(c: Cluster) {
    forall n <- c.nodes ::
      var l := c.nodes[n];
      l.role == Leader ==> l.term in c.reigns && c.reigns[l.term] == Reign(n, l.voters, l.accepted)
  }

  // ----- logs

  /** The tag (term, index) names exactly the first index+1 updates of that term's leader. */
  ghost predicate Tagged(c: Cluster, term: int, index: int, log: seq<Update>) {
    index != DEFAULT_DATA ==> term in c.reigns && |log| == index + 1 && log <= c.reigns[term].log
  }

  ghost predicate LogMessageOk(c: Cluster, m: Message) {
    match m
    case Heartbeat(_, term, _, _, _) => term in c.reigns
    case AppendEntry(_, term, commitId, prevLogIndex, prevLogTerm, update) =>
      && prevLogIndex >= DEFAULT_DATA
      && term in c.reigns
      && prevLogIndex + 1 < |c.reigns[term].log|
      && c.reigns[term].log[prevLogIndex + 1] == update
      && commitId == prevLogIndex + 1
      && Tagged(c, prevLogTerm, prevLogIndex, c.reigns[term].log[..prevLogIndex + 1])
    case InstallSnapshot(_, term, commitId, _, runtime) =>
      && term in c.reigns
      && commitId == |runtime| - 1
      && runtime <= c.reigns[term].log
    case _ => true
  }

  ghost predicate LogsOk(c: Cluster) {
    && (forall n <- c.nodes :: Tagged(c, c.nodes[n].prevLogTerm, c.nodes[n].prevLogIndex, c.nodes[n].accepted))
    && (forall m <- c.net :: LogMessageOk(c, m))
  }

  /** The commit id, the log index and the number of accepted updates always agree. */
  predicate LengthOk(n: Node) {
    n.commitId == n.prevLogIndex == |n.accepted| - 1
  }

  ghost predicate LogInv(c: Cluster) {
    && (forall n <- c.nodes :: c.nodes[n].id == n && LengthOk(c.nodes[n]))
    && LeadersOk(c)
    && LogsOk(c)
  }

  ghost predicate Inv(c: Cluster) {
    && LogInv(c)
    && NodesOk(c)
    && VotesOk(c)
    && OneVotePerTerm(c)
    && VotersBehind(c)
    && CountedVotes(c)
    && ReignsOk(c)
  }

  lemma InitInv(c: Cluster)
    requires Init(c)
    ensures Inv(c)
  {
  }

  // ----- quorums

  lemma QuorumsMeet(total: nat, all: set<NodeId>, a: set<NodeId>, b: set<NodeId>)
    requires a <= all && b <= all && |all| <= total
    requires |a| > total / 2 && |b| > total / 2
    ensures exists v :: v in a && v in b
  {
    if forall v <- a :: v !in b {
      assert |a + b| == |a| + |b|;
      SubsetSize(a + b, all);
    }
  }

  lemma {:induction false} SubsetSize(a: set<NodeId>, b: set<NodeId>)
    requires a <= b
    ensures |a| <= |b|
  {
    if a != {} {
      var x :| x in a;
      SubsetSize(a - {x}, b - {x});
    }
  }

  // ----- one node, one step

  predicate LocalOk(n: Node) {
    LengthOk(n) && n.voteNum == |n.voters| && n.lastVoteTerm <= n.term
  }

  predicate LeaderOnly(n: Node, s: Step) {
    s.SendHeartbeat? || s.Publish? ==> n.role == Leader
  }

  /** A snapshot carries as many updates as its commit id says. */
  predicate Readable(s: Step) {
    s.Deliver? && s.m.InstallSnapshot? ==> s.m.commitId == |s.m.runtime| - 1
  }

  predicate FreshFor(n: Node, s: Step) {
    (s.Deliver? && s.m.Heartbeat? && n.role == Candidate && ActsOnHeartbeat(n, s.m)) ==> s.m.term >= n.term
  }

  predicate Moves(n: Node, d: Node) {
    && d.id == n.id
    && n.commitId <= d.commitId
    && (d.role == Leader && n.role == Leader ==> d.term == n.term && d.voters == n.voters && n.accepted <= d.accepted)
  }

  predicate Forward(n: Node, d: Node) {
    n.term <= d.term && (d.role == Candidate && n.role != Candidate ==> n.term < d.term)
  }

  predicate Wins(total: nat, n: Node, s: Step, d: Node) {
    && n.role == Candidate && s.Deliver? && s.m.ResponseVote? && IsGrant(s.m, s.m.voter, n.term, n.id)
    && d == n.(role := Leader, leaderId := 0, voters := n.voters + {s.m.voter}, voteNum := n.voteNum + 1)
    && d.voteNum > total / 2
  }

  predicate Counts(n: Node, s: Step, d: Node) {
    && (|| d.voters == n.voters
        || d.voters == {}
        || (&& n.role == Candidate && s.Deliver? && s.m.ResponseVote? && IsGrant(s.m, s.m.voter, n.term, n.id)
            && d.voters == n.voters + {s.m.voter}))
    && (d.role == Candidate && d.term != n.term ==> d.voters == {})
  }

  predicate VotesAnew(s: Step, d: Node) {
    && s.Deliver? && s.m.RequestVote?
    && d.lastVoteFor == s.m.id && d.lastVoteTerm == s.m.term == d.term
    && (s.m.commitId == s.m.prevLogIndex >= DEFAULT_DATA ==> d.commitId <= s.m.commitId)
  }

  predicate KeepsVote(n: Node, d: Node) {
    d.lastVoteFor == n.lastVoteFor && d.lastVoteTerm == n.lastVoteTerm
  }

  predicate Votes(n: Node, s: Step, o: Outcome) {
    var d := o.node;
    && (KeepsVote(n, d) || d.lastVoteFor == DEFAULT_DATA || VotesAnew(s, d))
    && (n.term == d.term && n.lastVoteFor != DEFAULT_DATA && n.lastVoteTerm == n.term ==> KeepsVote(n, d))
    && (forall m <- o.out | m.ResponseVote? && m.voteGranted ::
          m.voter == n.id && m.voteForTerm == d.term && d.lastVoteTerm == d.term && d.lastVoteFor == m.id && m.commitId == d.commitId)
    && (forall m <- o.out | m.RequestVote? ::
          m.id == n.id && m.commitId == m.prevLogIndex == d.commitId && m.term == d.term)
  }

  /** The three ways a node's log changes: a follower appends or installs, or a leader publishes. */
  predicate LogMoves(n: Node, s: Step, d: Node) {
    || (d.accepted == n.accepted && d.prevLogTerm == n.prevLogTerm && d.commitId == n.commitId)
    || (&& s.Deliver? && s.m.AppendEntry? && d.role != Leader
        && n.prevLogIndex != DEFAULT_DATA && n.prevLogTerm == s.m.prevLogTerm && n.prevLogIndex == s.m.prevLogIndex
        && d.accepted == n.accepted + [s.m.update] && d.prevLogTerm == s.m.term == d.term)
    || (&& s.Deliver? && s.m.InstallSnapshot? && d.role != Leader
        && d.accepted == s.m.runtime && d.prevLogTerm == s.m.term == d.term)
    || (s.Publish? && n.role == Leader && d.role == Leader
        && d.accepted == n.accepted + [s.u] && d.prevLogTerm == d.term == n.term)
  }

  predicate LogMessages(n: Node, s: Step, o: Outcome) {
    forall m <- o.out ::
      match m
      case Heartbeat(_, term, _, _, _) => o.node.role == Leader && term == o.node.term
      case AppendEntry(_, term, commitId, prevLogIndex, prevLogTerm, update) =>
        && n.role == Leader && o.node.role == Leader && term == o.node.term
        && prevLogIndex == n.prevLogIndex && prevLogTerm == n.prevLogTerm && commitId == prevLogIndex + 1
        && o.node.accepted == n.accepted + [update]
      case InstallSnapshot(_, term, commitId, _, runtime) =>
        n.role == Leader && o.node == n && term == n.term && commitId == n.commitId && runtime == n.accepted
      case _ => true
  }

  lemma LocalStep(total: nat, n: Node, s: Step)
    requires LocalOk(n) && Readable(s) && LeaderOnly(n, s) && FreshFor(n, s)
    ensures var o := React(total, n, s);
            LocalOk(o.node) && Forward(n, o.node) && Counts(n, s, o.node)
  {
    if s.Deliver? {
      match n.role {
        case Follower => FollowerStep(n, s);
        case Candidate => CandidateStep(total, n, s);
        case Leader =>
      }
    }
  }

  lemma FollowerStep(n: Node, s: Step)
    requires LocalOk(n) && Readable(s) && s.Deliver? && n.role == Follower
    ensures var d := FollowerReceive(n, s.m).node; LocalOk(d) && Forward(n, d) && Counts(n, s, d)
  {
  }

  lemma CandidateStep(total: nat, n: Node, s: Step)
    requires LocalOk(n) && Readable(s) && s.Deliver? && n.role == Candidate && FreshFor(n, s)
    ensures var d := CandidateReceive(total, n, s.m).node; LocalOk(d) && Forward(n, d) && Counts(n, s, d)
  {
  }

  lemma LocalVotes(total: nat, n: Node, s: Step)
    requires LocalOk(n) && Readable(s) && LeaderOnly(n, s) && FreshFor(n, s)
    ensures Votes(n, s, React(total, n, s))
  {
    if s.Deliver? {
      match n.role {
        case Follower => FollowerVotes(n, s);
        case Candidate => CandidateVotes(total, n, s);
        case Leader =>
      }
    }
  }

  lemma FollowerVotes(n: Node, s: Step)
    requires LocalOk(n) && s.Deliver?
    ensures Votes(n, s, FollowerReceive(n, s.m))
  {
  }

  lemma CandidateVotes(total: nat, n: Node, s: Step)
    requires LocalOk(n) && s.Deliver? && FreshFor(n, s)
    ensures Votes(n, s, CandidateReceive(total, n, s.m))
  {
  }

  lemma LocalLog(total: nat, n: Node, s: Step)
    requires LengthOk(n) && Readable(s) && LeaderOnly(n, s)
    ensures var o := React(total, n, s); LengthOk(o.node) && Moves(n, o.node) && LogMoves(n, s, o.node) && LogMessages(n, s, o)
  {
    if s.Deliver? {
      match n.role {
        case Follower => FollowerLog(n, s);
        case Candidate => CandidateLog(total, n, s);
        case Leader =>
      }
    }
  }

  lemma FollowerLog(n: Node, s: Step)
    requires LengthOk(n) && Readable(s) && s.Deliver? && n.role == Follower
    ensures var o := FollowerReceive(n, s.m);
            LengthOk(o.node) && Moves(n, o.node) && LogMoves(n, s, o.node) && LogMessages(n, s, o)
  {
  }

  lemma CandidateLog(total: nat, n: Node, s: Step)
    requires LengthOk(n) && s.Deliver? && n.role == Candidate
    ensures var o := CandidateReceive(total, n, s.m);
            LengthOk(o.node) && Moves(n, o.node) && LogMoves(n, s, o.node) && LogMessages(n, s, o)
  {
  }

  lemma WinningStep(total: nat, n: Node, s: Step)
    requires LeaderOnly(n, s)
    requires n.role != Leader && React(total, n, s).node.role == Leader
    ensures Wins(total, n, s, React(total, n, s).node)
  {
  }
}
