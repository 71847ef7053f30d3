/** Every fresh step keeps the invariant. */
module ElectionPreservation {
  import opened ElectionNode
  import opened ElectionCluster
  import opened ElectionInvariant

  /** Commit ids, the network and the reigns only grow. */
  ghost predicate Extends(c: Cluster, d: Cluster) {
    && d.totalNode == c.totalNode
    && d.nodes.Keys == c.nodes.Keys
    && c.net <= d.net
    && (forall n <- c.nodes :: c.nodes[n].commitId <= d.nodes[n].commitId)
    && (forall t <- c.reigns :: t in d.reigns && c.reigns[t].leader == d.reigns[t].leader && c.reigns[t].log <= d.reigns[t].log)
  }

  ghost predicate Advances(c: Cluster, d: Cluster) {
    Extends(c, d) && forall n <- c.nodes :: c.nodes[n].term <= d.nodes[n].term
  }

  /** One node moved from c.nodes[s.n] to o.node: what the step did to its log. */
  ghost predicate Logged(c: Cluster, s: Step, o: Outcome) {
    && Enabled(c, s)
    && var n := c.nodes[s.n];
    && LengthOk(o.node) && Moves(n, o.node) && LogMoves(n, s, o.node) && LogMessages(n, s, o)
  }

  /** One node moved from c.nodes[s.n] to o.node, in the ways a single step allows. */
  ghost predicate Stepped(c: Cluster, s: Step, o: Outcome) {
    && Logged(c, s, o)
    && var n := c.nodes[s.n];
    && LocalOk(o.node) && Forward(n, o.node) && Counts(n, s, o.node) && Votes(n, s, o)
    && (o.node.role == Leader && n.role != Leader ==> Wins(c.totalNode, n, s, o.node))
  }

  predicate TakesOver(c: Cluster, s: Step, o: Outcome)
    requires s.n in c.nodes
  {
    c.nodes[s.n].role != Leader && o.node.role == Leader
  }

  // ----- logs: kept by every step that does not win a term twice

  lemma StepIsLogged(c: Cluster, s: Step)
    requires LogInv(c) && Enabled(c, s)
    ensures Logged(c, s, React(c.totalNode, c.nodes[s.n], s))
  {
    assert Readable(s) by {
      if s.Deliver? { assert LogMessageOk(c, s.m); }
    }
    LocalLog(c.totalNode, c.nodes[s.n], s);
  }

  lemma Grows(c: Cluster, n: NodeId, o: Outcome)
    requires n in c.nodes && c.nodes[n].id == n && LeadersOk(c) && Moves(c.nodes[n], o.node)
    requires o.node.role == Leader && c.nodes[n].role != Leader ==> o.node.term !in c.reigns
    ensures Extends(c, Extend(c, n, o))
  {
  }

  lemma TagPersists(c: Cluster, d: Cluster, term: int, index: int, log: seq<Update>)
    requires Extends(c, d) && Tagged(c, term, index, log)
    ensures Tagged(d, term, index, log)
  {
  }

  lemma LoggedInv(c: Cluster, s: Step, o: Outcome)
    requires LogInv(c) && Logged(c, s, o)
    requires TakesOver(c, s, o) ==> o.node.term !in c.reigns
    ensures Extends(c, Extend(c, s.n, o)) && LogInv(Extend(c, s.n, o))
  {
    var d := Extend(c, s.n, o);
    Grows(c, s.n, o);
    KeepsLeaders(c, s, o);
    KeepsLogs(c, d, s, o);
  }

  lemma KeepsLeaders(c: Cluster, s: Step, o: Outcome)
    requires LogInv(c) && Logged(c, s, o)
    requires TakesOver(c, s, o) ==> o.node.term !in c.reigns
    ensures LeadersOk(Extend(c, s.n, o))
  {
  }

  lemma KeepsLogs(c: Cluster, d: Cluster, s: Step, o: Outcome)
    requires LogInv(c) && Logged(c, s, o) && d == Extend(c, s.n, o) && Extends(c, d)
    ensures LogsOk(d)
  {
    MovedTagged(c, d, s, o);
    forall n <- d.nodes
      ensures Tagged(d, d.nodes[n].prevLogTerm, d.nodes[n].prevLogIndex, d.nodes[n].accepted)
    {
      if n != s.n {
        TagPersists(c, d, c.nodes[n].prevLogTerm, c.nodes[n].prevLogIndex, c.nodes[n].accepted);
      }
    }
    forall m <- d.net ensures LogMessageOk(d, m) {
      if m in c.net {
        OldLogMessageOk(c, d, m);
      } else {
        NewLogMessageOk(c, d, s, o, m);
      }
    }
  }

  /** A follower that appends after a matching tag holds what the leader holds: this is where logs come to match. */
  lemma MovedTagged(c: Cluster, d: Cluster, s: Step, o: Outcome)
    requires LogsOk(c) && LeadersOk(c) && Enabled(c, s) && d == Extend(c, s.n, o) && Extends(c, d)
    requires c.nodes[s.n].id == s.n && o.node.id == s.n
    requires LengthOk(c.nodes[s.n]) && LengthOk(o.node) && LogMoves(c.nodes[s.n], s, o.node)
    ensures Tagged(d, o.node.prevLogTerm, o.node.prevLogIndex, o.node.accepted)
  {
    var n, v := c.nodes[s.n], o.node;
    if v.accepted == n.accepted && v.prevLogTerm == n.prevLogTerm && v.commitId == n.commitId {
      TagPersists(c, d, n.prevLogTerm, n.prevLogIndex, n.accepted);
    } else if s.Deliver? && s.m.AppendEntry? {
      assert LogMessageOk(c, s.m);
      AppendedTagged(c, n, s.m);
      TagPersists(c, d, s.m.term, n.prevLogIndex + 1, v.accepted);
    } else if s.Deliver? {
      assert LogMessageOk(c, s.m);
      TagPersists(c, d, s.m.term, s.m.commitId, v.accepted);
    }
  }

  lemma AppendedTagged(c: Cluster, n: Node, m: Message)
    requires LengthOk(n) && Tagged(c, n.prevLogTerm, n.prevLogIndex, n.accepted) && n.prevLogIndex != DEFAULT_DATA
    requires m.AppendEntry? && LogMessageOk(c, m) && n.prevLogTerm == m.prevLogTerm && n.prevLogIndex == m.prevLogIndex
    ensures Tagged(c, m.term, n.prevLogIndex + 1, n.accepted + [m.update])
  {
  }

  lemma OldLogMessageOk(c: Cluster, d: Cluster, m: Message)
    requires Extends(c, d) && LogMessageOk(c, m)
    ensures LogMessageOk(d, m)
  {
  }

  lemma NewLogMessageOk(c: Cluster, d: Cluster, s: Step, o: Outcome, m: Message)
    requires LogsOk(c) && LeadersOk(c) && Enabled(c, s) && d == Extend(c, s.n, o) && Extends(c, d)
    requires LengthOk(c.nodes[s.n]) && LogMessages(c.nodes[s.n], s, o) && m in o.out
    ensures LogMessageOk(d, m)
  {
  }

  lemma LogStep(c: Cluster, s: Step)
    requires LogInv(c) && Enabled(c, s)
    requires var o := React(c.totalNode, c.nodes[s.n], s); TakesOver(c, s, o) ==> o.node.term !in c.reigns
    ensures LogInv(Apply(c, s)) && Extends(c, Apply(c, s))
  {
    StepIsLogged(c, s);
    LoggedInv(c, s, React(c.totalNode, c.nodes[s.n], s));
  }

  // ----- votes and leaders: kept by every fresh step

  lemma StepIsStepped(c: Cluster, s: Step)
    requires Inv(c) && Enabled(c, s) && Fresh(c, s)
    ensures Stepped(c, s, React(c.totalNode, c.nodes[s.n], s))
  {
    var n := c.nodes[s.n];
    StepIsLogged(c, s);
    assert NodeOk(c, s.n);
    assert Readable(s) by {
      if s.Deliver? { assert LogMessageOk(c, s.m); }
    }
    LocalStep(c.totalNode, n, s);
    LocalVotes(c.totalNode, n, s);
    if n.role != Leader && React(c.totalNode, n, s).node.role == Leader {
      WinningStep(c.totalNode, n, s);
    }
  }

  /** The winner's majority would meet the majority of an earlier winner of the same term. */
  lemma WinnerIsNew(c: Cluster, s: Step, d: Node)
    requires Inv(c) && Enabled(c, s) && Wins(c.totalNode, c.nodes[s.n], s, d) && LocalOk(d)
    ensures c.nodes[s.n].term !in c.reigns
  {
    var t := c.nodes[s.n].term;
    assert GrantOk(c, s.m);
    assert NodeOk(c, s.n);
    if t in c.reigns {
      var r := c.reigns[t];
      assert ReignOk(c, t);
      QuorumsMeet(c.totalNode, c.nodes.Keys, r.backers, d.voters);
      var v :| v in r.backers && v in d.voters;
      assert HasGrant(c, v, t, r.leader);
      assert HasGrant(c, v, t, s.n);
    }
  }

  lemma StepAdvances(c: Cluster, s: Step, o: Outcome)
    requires Inv(c) && Stepped(c, s, o)
    ensures Advances(c, Extend(c, s.n, o))
    ensures o.node.role == Leader && c.nodes[s.n].role != Leader ==> o.node.term !in c.reigns
  {
    if o.node.role == Leader && c.nodes[s.n].role != Leader {
      WinnerIsNew(c, s, o.node);
    }
    assert NodeOk(c, s.n);
    Grows(c, s.n, o);
  }

  lemma KeepsNodes(c: Cluster, s: Step, o: Outcome)
    requires Inv(c) && Stepped(c, s, o)
    ensures NodesOk(Extend(c, s.n, o))
  {
  }

  lemma KeepsVotes(c: Cluster, s: Step, o: Outcome)
    requires Inv(c) && Stepped(c, s, o)
    ensures VotesOk(Extend(c, s.n, o))
  {
    var d := Extend(c, s.n, o);
    StepAdvances(c, s, o);
    assert NodeOk(c, s.n);
    forall m <- d.net | m.ResponseVote? && m.voteGranted ensures GrantOk(d, m) {
      if m in c.net {
        assert GrantOk(c, m);
      } else {
        NewGrantOk(c, s, o, m);
      }
    }
    forall m <- d.net | m.RequestVote? ensures RequestOk(d, m) {
      if m in c.net { assert RequestOk(c, m); }
    }
  }

  lemma NewGrantOk(c: Cluster, s: Step, o: Outcome, m: Message)
    requires Inv(c) && Stepped(c, s, o)
    requires m in o.out && m.ResponseVote? && m.voteGranted
    ensures GrantOk(Extend(c, s.n, o), m)
  {
  }

  lemma VoterBehind(c: Cluster, s: Step, o: Outcome)
    requires Inv(c) && Stepped(c, s, o)
    ensures Behind(Extend(c, s.n, o), o.node)
  {
    StepAdvances(c, s, o);
    var d := Extend(c, s.n, o);
    assert NodeOk(c, s.n);
    if VotesAnew(s, o.node) {
      assert s.m in c.net;
      NewVoteBehind(c, d, s, o.node);
    } else if o.node.lastVoteFor != DEFAULT_DATA {
      CommitNeedsLeader(c, s, o);
      OldVoteBehind(c, d, c.nodes[s.n], o.node);
    }
  }

  lemma NewVoteBehind(c: Cluster, d: Cluster, s: Step, v: Node)
    requires NodesOk(c) && VotesOk(c) && Advances(c, d) && VotesAnew(s, v) && s.m in c.net
    ensures Behind(d, v)
  {
  }

  lemma OldVoteBehind(c: Cluster, d: Cluster, n: Node, v: Node)
    requires n.id in c.nodes && c.nodes[n.id] == n && n.lastVoteTerm <= n.term
    requires VotersBehind(c) && Advances(c, d) && KeepsVote(n, v) && n.term <= v.term
    requires v.commitId == n.commitId || v.term in c.reigns
    ensures Behind(d, v)
  {
  }

  /** A log grows or is replaced only in the term of some leader. */
  lemma CommitNeedsLeader(c: Cluster, s: Step, o: Outcome)
    requires LogsOk(c) && LeadersOk(c) && Enabled(c, s)
    requires LengthOk(c.nodes[s.n]) && LengthOk(o.node) && LogMoves(c.nodes[s.n], s, o.node)
    ensures o.node.commitId == c.nodes[s.n].commitId || o.node.term in c.reigns
  {
  }

  lemma KeepsOneVote(c: Cluster, s: Step, o: Outcome)
    requires NodesOk(c) && VotesOk(c) && OneVotePerTerm(c)
    requires Enabled(c, s) && Moves(c.nodes[s.n], o.node) && Forward(c.nodes[s.n], o.node) && Votes(c.nodes[s.n], s, o)
    ensures OneVotePerTerm(Extend(c, s.n, o))
  {
  }

  lemma KeepsVotersBehind(c: Cluster, s: Step, o: Outcome)
    requires Inv(c) && Stepped(c, s, o)
    ensures VotersBehind(Extend(c, s.n, o))
  {
    var d := Extend(c, s.n, o);
    StepAdvances(c, s, o);
    VoterBehind(c, s, o);
    forall n <- d.nodes | n != s.n ensures Behind(d, d.nodes[n]) {
      OthersBehind(c, d, c.nodes[n]);
    }
  }

  lemma OthersBehind(c: Cluster, d: Cluster, v: Node)
    requires Behind(c, v) && Advances(c, d)
    ensures Behind(d, v)
  {
  }

  lemma KeepsCounted(c: Cluster, s: Step, o: Outcome)
    requires NodesOk(c) && CountedVotes(c)
    requires Enabled(c, s) && Counts(c.nodes[s.n], s, o.node) && Forward(c.nodes[s.n], o.node)
    ensures CountedVotes(Extend(c, s.n, o))
  {
  }

  lemma KeepsReigns(c: Cluster, s: Step, o: Outcome)
    requires Inv(c) && Stepped(c, s, o)
    ensures ReignsOk(Extend(c, s.n, o))
  {
    var d := Extend(c, s.n, o);
    StepAdvances(c, s, o);
    assert NodeOk(c, s.n);
    forall t <- d.reigns ensures ReignOk(d, t) {
      if t in c.reigns {
        OldReignOk(c, s, o, t);
      } else {
        NewReignOk(c, s, o);
      }
    }
  }

  lemma OldReignOk(c: Cluster, s: Step, o: Outcome, t: int)
    requires NodesOk(c) && ReignsOk(c) && LeadersOk(c) && t in c.reigns
    requires Enabled(c, s) && Moves(c.nodes[s.n], o.node) && Forward(c.nodes[s.n], o.node) && Advances(c, Extend(c, s.n, o))
    requires o.node.role == Leader && c.nodes[s.n].role != Leader ==> o.node.term !in c.reigns
    ensures ReignOk(Extend(c, s.n, o), t)
  {
  }

  lemma NewReignOk(c: Cluster, s: Step, o: Outcome)
    requires NodesOk(c) && VotesOk(c) && CountedVotes(c) && Enabled(c, s) && LocalOk(o.node)
    requires Wins(c.totalNode, c.nodes[s.n], s, o.node)
    ensures ReignOk(Extend(c, s.n, o), o.node.term)
  {
  }

  lemma SteppedInv(c: Cluster, s: Step, o: Outcome)
    requires Inv(c) && Stepped(c, s, o)
    ensures Inv(Extend(c, s.n, o)) && Advances(c, Extend(c, s.n, o))
  {
    StepAdvances(c, s, o);
    KeepsNodes(c, s, o);
    KeepsVotes(c, s, o);
    KeepsOneVote(c, s, o);
    KeepsVotersBehind(c, s, o);
    KeepsCounted(c, s, o);
    KeepsReigns(c, s, o);
    LoggedInv(c, s, o);
  }

  lemma StepInv(c: Cluster, s: Step)
    requires Inv(c) && Enabled(c, s) && Fresh(c, s)
    ensures Inv(Apply(c, s)) && Advances(c, Apply(c, s))
  {
    StepIsStepped(c, s);
    SteppedInv(c, s, React(c.totalNode, c.nodes[s.n], s));
  }
}
