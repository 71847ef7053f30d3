/** The results about whole runs of the cluster. */
module ElectionSafety {
  import opened ElectionNode
  import opened ElectionCluster
  import opened ElectionInvariant
  import opened ElectionPreservation
  import ElectionVotes

  // ----- what a run says about elections

  /** The i-th step of the run makes its node a leader. */
  predicate WinsAt(b: seq<Cluster>, ss: seq<Step>, i: nat)
    requires i < |ss| && |b| == |ss| + 1 && ss[i].n in b[i].nodes && ss[i].n in b[i + 1].nodes
  {
    b[i].nodes[ss[i].n].role != Leader && b[i + 1].nodes[ss[i].n].role == Leader
  }

  ghost predicate TermsWonOnce(b: seq<Cluster>, ss: seq<Step>)
    requires Run(b, ss)
  {
    forall i, j :: 0 <= i < j < |ss| && WinsAt(b, ss, i) && WinsAt(b, ss, j) ==>
      b[i + 1].nodes[ss[i].n].term != b[j + 1].nodes[ss[j].n].term
  }

  // ----- induction over runs

  lemma {:induction false} FreshRunInv(b: seq<Cluster>, ss: seq<Step>, i: nat)
    requires FreshRun(b, ss) && i < |b|
    ensures Inv(b[i])
  {
    if i == 0 {
      InitInv(b[0]);
    } else {
      FreshRunInv(b, ss, i - 1);
      StepInv(b[i - 1], ss[i - 1]);
    }
  }

  /** A recorded reign was begun by a winning step of the run. */
  lemma {:induction false} ReignWasWon(b: seq<Cluster>, ss: seq<Step>, i: nat, t: int) returns (w: nat)
    requires Run(b, ss) && i < |b| && t in b[i].reigns
    requires forall k :: 0 <= k < i ==> LogInv(b[k])
    ensures w < i && WinsAt(b, ss, w) && b[w + 1].nodes[ss[w].n].term == t
  {
    var k := i - 1;
    if t in b[k].reigns {
      w := ReignWasWon(b, ss, k, t);
    } else {
      w := k;
      StepIsLogged(b[k], ss[k]);
      assert LeadersOk(b[k]);
    }
  }

  lemma NotWonBefore(b: seq<Cluster>, ss: seq<Step>, k: nat)
    requires Run(b, ss) && TermsWonOnce(b, ss) && k < |ss| && WinsAt(b, ss, k)
    requires forall h :: 0 <= h <= k ==> LogInv(b[h])
    ensures b[k + 1].nodes[ss[k].n].term !in b[k].reigns
  {
    var t := b[k + 1].nodes[ss[k].n].term;
    if t in b[k].reigns {
      var w := ReignWasWon(b, ss, k, t);
    }
  }

  ghost predicate LogsSoFar(b: seq<Cluster>, i: nat)
    requires i < |b|
  {
    && (forall k :: 0 <= k <= i ==> LogInv(b[k]))
    && (forall k :: 0 <= k < i ==> Extends(b[k], b[k + 1]))
  }

  lemma OneMoreLog(b: seq<Cluster>, i: nat)
    requires i + 1 < |b| && LogsSoFar(b, i) && LogInv(b[i + 1]) && Extends(b[i], b[i + 1])
    ensures LogsSoFar(b, i + 1)
  {
  }

  lemma {:induction false} WonOnceLogInv(b: seq<Cluster>, ss: seq<Step>, i: nat)
    requires Run(b, ss) && TermsWonOnce(b, ss) && i < |b|
    ensures LogsSoFar(b, i)
  {
    if i == 0 {
      InitInv(b[0]);
    } else {
      WonOnceLogInv(b, ss, i - 1);
      LogInvNext(b, ss, i - 1);
      OneMoreLog(b, i - 1);
    }
  }

  lemma LogInvNext(b: seq<Cluster>, ss: seq<Step>, k: nat)
    requires Run(b, ss) && TermsWonOnce(b, ss) && k < |ss|
    requires forall h :: 0 <= h <= k ==> LogInv(b[h])
    ensures LogInv(b[k + 1]) && Extends(b[k], b[k + 1])
  {
    assert b[k + 1] == Apply(b[k], ss[k]);
    if WinsAt(b, ss, k) {
      NotWonBefore(b, ss, k);
    }
    LogStep(b[k], ss[k]);
  }

  lemma {:induction false} ReignPersists(b: seq<Cluster>, i: nat, j: nat, t: int)
    requires i <= j < |b| && t in b[i].reigns
    requires forall k :: 0 <= k < j ==> Extends(b[k], b[k + 1])
    ensures t in b[j].reigns && b[i].reigns[t].leader == b[j].reigns[t].leader && b[i].reigns[t].log <= b[j].reigns[t].log
  {
    if i < j {
      ReignPersists(b, i, j - 1, t);
      assert Extends(b[j - 1], b[j]);
    }
  }

  // ----- election safety

  /** In a fresh run no term is won twice. */
  lemma FreshRunWonOnce(b: seq<Cluster>, ss: seq<Step>)
    requires FreshRun(b, ss)
    ensures TermsWonOnce(b, ss)
  {
    forall i, j | 0 <= i < j < |ss| && WinsAt(b, ss, i) && WinsAt(b, ss, j)
      ensures b[i + 1].nodes[ss[i].n].term != b[j + 1].nodes[ss[j].n].term
    {
      forall k | 0 <= k < |ss| ensures Extends(b[k], b[k + 1]) {
        FreshRunInv(b, ss, k);
        StepInv(b[k], ss[k]);
      }
      FreshRunInv(b, ss, i + 1);
      ReignPersists(b, i + 1, j, b[i + 1].nodes[ss[i].n].term);
      FreshRunInv(b, ss, j);
      StepIsStepped(b[j], ss[j]);
      StepAdvances(b[j], ss[j], React(b[j].totalNode, b[j].nodes[ss[j].n], ss[j]));
    }
  }

  /** Section 5.2 of the Raft paper: at most one leader per term, at any two moments of the run. */
  lemma ElectionSafety(b: seq<Cluster>, ss: seq<Step>, i: nat, n: NodeId, j: nat, m: NodeId)
    requires FreshRun(b, ss) && i < |b| && j < |b| && n in b[i].nodes && m in b[j].nodes
    requires b[i].nodes[n].role == Leader && b[j].nodes[m].role == Leader
    requires b[i].nodes[n].term == b[j].nodes[m].term
    ensures n == m
  {
    assert ElectionVotes.HarmlessRun(b, ss) by {
      assert forall k :: 0 <= k < |ss| && Fresh(b[k], ss[k]) ==> ElectionVotes.Harmless(b[k], ss[k]);
    }
    ElectionVotes.OneLeaderPerTerm(b, ss, i, n, j, m);
  }

  // ----- the winner's majority

  predicate GrantFor(m: Message, voter: NodeId, winner: Node) {
    IsGrant(m, voter, winner.term, winner.id) && m.commitId <= winner.commitId
  }

  /** Whoever becomes leader was granted its term by a majority, none of whom held more updates when granting;
      and no grant at all for that term came from a voter that held more. */
  lemma WinnerBackedByMajority(b: seq<Cluster>, ss: seq<Step>, i: nat)
    requires FreshRun(b, ss) && i < |ss| && WinsAt(b, ss, i)
    ensures var w := b[i + 1].nodes[ss[i].n];
            && |w.voters| > b[0].totalNode / 2
            && w.voters <= b[0].nodes.Keys
            && (forall v <- w.voters :: exists m <- b[i].net :: GrantFor(m, v, w))
            && (forall m <- b[i].net | m.ResponseVote? && IsGrant(m, m.voter, w.term, w.id) :: m.commitId <= w.commitId)
  {
    var c := b[i];
    var n := c.nodes[ss[i].n];
    var w := b[i + 1].nodes[ss[i].n];
    FreshRunInv(b, ss, i);
    FreshRunInv(b, ss, i + 1);
    StepIsStepped(c, ss[i]);
    WinnerIsNew(c, ss[i], w);
    SameNodes(b, ss, i);
    assert NodeOk(c, ss[i].n) && NodeOk(b[i + 1], ss[i].n);
    forall m <- c.net | m.ResponseVote? && IsGrant(m, m.voter, w.term, w.id) ensures m.commitId <= w.commitId {
      assert GrantOk(c, m);
    }
    forall v <- w.voters ensures exists m <- c.net :: GrantFor(m, v, w) {
      assert v != ss[i].m.voter ==> HasGrant(c, v, n.term, n.id);
      var m :| m in c.net && IsGrant(m, v, w.term, w.id);
      assert GrantFor(m, v, w);
    }
  }

  lemma {:induction false} SameNodes(b: seq<Cluster>, ss: seq<Step>, i: nat)
    requires Run(b, ss) && i < |b|
    ensures b[i].totalNode == b[0].totalNode && b[i].nodes.Keys == b[0].nodes.Keys
  {
    if i > 0 {
      SameNodes(b, ss, i - 1);
      assert b[i].nodes.Keys == b[i - 1].nodes.Keys;
    }
  }

  // ----- log matching

  /** Section 5.3 of the Raft paper, for this log's tags: in a run where no term is won twice, nodes whose last entry
      carries the same term hold logs of which one is a prefix of the other, so equal tags mean equal logs. */
  lemma LogMatching(b: seq<Cluster>, ss: seq<Step>, i: nat, n: NodeId, j: nat, m: NodeId)
    requires Run(b, ss) && TermsWonOnce(b, ss) && i < |b| && j < |b| && n in b[i].nodes && m in b[j].nodes
    requires b[i].nodes[n].prevLogIndex != DEFAULT_DATA && b[j].nodes[m].prevLogIndex != DEFAULT_DATA
    requires b[i].nodes[n].prevLogTerm == b[j].nodes[m].prevLogTerm
    requires b[i].nodes[n].prevLogIndex <= b[j].nodes[m].prevLogIndex
    ensures b[i].nodes[n].accepted <= b[j].nodes[m].accepted
    ensures b[i].nodes[n].prevLogIndex == b[j].nodes[m].prevLogIndex ==> b[i].nodes[n].accepted == b[j].nodes[m].accepted
  {
    var x, y := b[i].nodes[n], b[j].nodes[m];
    WonOnceLogInv(b, ss, |ss|);
    assert LogInv(b[i]) && LogInv(b[j]);
    assert Tagged(b[i], x.prevLogTerm, x.prevLogIndex, x.accepted);
    assert Tagged(b[j], y.prevLogTerm, y.prevLogIndex, y.accepted);
    ReignPersists(b, i, |ss|, x.prevLogTerm);
    ReignPersists(b, j, |ss|, x.prevLogTerm);
  }

  // ----- commit ids and terms

  /** In every run, fresh or not, a node's commit id never decreases. */
  lemma {:induction false} CommitIdNeverDecreases(b: seq<Cluster>, ss: seq<Step>, i: nat, j: nat, n: NodeId)
    requires Run(b, ss) && i <= j < |b| && n in b[0].nodes
    ensures n in b[i].nodes && n in b[j].nodes && b[i].nodes[n].commitId <= b[j].nodes[n].commitId
  {
    SameNodes(b, ss, i);
    SameNodes(b, ss, j);
    if i < j {
      CommitIdNeverDecreases(b, ss, i, j - 1, n);
    }
  }

  /** A step lets some node's term go backwards exactly when a candidate acts on a heartbeat older than its term. */
  lemma TermFallsIffStaleHeartbeat(c: Cluster, s: Step)
    requires Enabled(c, s)
    ensures (exists n <- c.nodes :: Apply(c, s).nodes[n].term < c.nodes[n].term) <==> !Fresh(c, s)
  {
  }
}
