/** Without the freshness hypothesis the cluster really can elect two leaders in one term. */
module StaleHeartbeat {
  import opened ElectionNode
  import opened ElectionCluster

  /** The end of a run of a cluster of three. */
  ghost predicate Reaches(b: seq<Cluster>, ss: seq<Step>, c: Cluster) {
    Run(b, ss) && b[|b| - 1] == c && c.totalNode == 3
  }

  lemma Then(b: seq<Cluster>, ss: seq<Step>, c: Cluster, s: Step, o: Outcome)
      returns (b': seq<Cluster>, ss': seq<Step>, c': Cluster)
    requires Reaches(b, ss, c) && Enabled(c, s) && o == React(3, c.nodes[s.n], s)
    ensures Reaches(b', ss', c') && b <= b' && ss + [s] == ss'
    ensures c'.nodes == c.nodes[s.n := o.node] && c'.net == c.net + (set m | m in o.out)
  {
    c' := Apply(c, s);
    b', ss' := b + [c'], ss + [s];
    forall i | 0 <= i < |ss'| ensures Enabled(b'[i], ss'[i]) && b'[i + 1] == Apply(b'[i], ss'[i]) {
      if i < |ss| { assert b'[i] == b[i] && b'[i + 1] == b[i + 1] && ss'[i] == ss[i]; }
    }
  }

  /** A node that has not voted in term t, holds no updates and follows nobody. */
  predicate Votable(n: Node, t: int) {
    n.prevLogIndex == DEFAULT_DATA && n.term <= t && n.leaderId == 0 && (n.lastVoteFor == DEFAULT_DATA || n.lastVoteTerm != t)
  }

  function Voted(n: Node, a: NodeId, t: int): Node {
    n.(term := t, lastVoteTerm := t, lastVoteFor := a)
  }

  function Crowned(n: Node, v: NodeId): Node {
    Voted(n, n.id, n.term).(role := Leader, voters := {n.id, v}, voteNum := 2)
  }

  predicate Campaigning(n: Node, a: NodeId) {
    n.id == a && n.role == Candidate && n.voters == {} && n.voteNum == 0 && Votable(n, n.term)
  }

  lemma Grants(n: Node, a: Node)
    requires n.role != Leader && Votable(n, a.term) && (n.role == Candidate ==> n.term == a.term)
    ensures var v := Voted(n, a.id, a.term); React(3, n, Deliver(n.id, Ask(a))) == Outcome(v, [Response(v, Ask(a), true)])
  {
  }

  /** A candidate asks itself and one follower for their votes, and in a cluster of three that makes it leader. */
  lemma Campaign(b: seq<Cluster>, ss: seq<Step>, c: Cluster, a: NodeId, v: NodeId)
      returns (b': seq<Cluster>, ss': seq<Step>, c': Cluster)
    requires Reaches(b, ss, c) && a != v && a in c.nodes && v in c.nodes
    requires Campaigning(c.nodes[a], a) && Ask(c.nodes[a]) in c.net
    requires c.nodes[v].id == v && c.nodes[v].role == Follower && Votable(c.nodes[v], c.nodes[a].term)
    ensures Reaches(b', ss', c') && b <= b' && ss <= ss' && c.net <= c'.net
    ensures c'.nodes == c.nodes[a := Crowned(c.nodes[a], v)][v := Voted(c.nodes[v], a, c.nodes[a].term)]
    ensures Beat(Crowned(c.nodes[a], v)) in c'.net
  {
    var n, t := c.nodes[a], c.nodes[a].term;
    var rv := Ask(n);
    var n1, v1 := Voted(n, a, t), Voted(c.nodes[v], a, t);
    var ra, r := Response(n1, rv, true), Response(v1, rv, true);
    Grants(n, n);
    b', ss', c' := Then(b, ss, c, Deliver(a, rv), Outcome(n1, [ra]));
    Grants(c.nodes[v], n);
    b', ss', c' := Then(b', ss', c', Deliver(v, rv), Outcome(v1, [r]));
    var n2 := n1.(voters := {a}, voteNum := 1);
    b', ss', c' := Then(b', ss', c', Deliver(a, ra), Outcome(n2, []));
    var n3 := Crowned(n, v);
    assert {a} + {v} == {a, v};
    b', ss', c' := Then(b', ss', c', Deliver(a, r), Outcome(n3, [Beat(n3)]));
  }

  function Runner(n: Node): Node {
    StartElection(n).node
  }

  /** A node starts an election and wins it with one follower's vote. */
  lemma Elects(b: seq<Cluster>, ss: seq<Step>, c: Cluster, a: NodeId, v: NodeId)
      returns (b': seq<Cluster>, ss': seq<Step>, c': Cluster)
    requires Reaches(b, ss, c) && a != v && a in c.nodes && v in c.nodes
    requires c.nodes[a].id == a && c.nodes[a].role != Leader && c.nodes[a].prevLogIndex == DEFAULT_DATA
    requires c.nodes[v].id == v && c.nodes[v].role == Follower && Votable(c.nodes[v], c.nodes[a].term + 1)
    ensures Reaches(b', ss', c') && b <= b' && ss <= ss' && c.net <= c'.net
    ensures c'.nodes == c.nodes[a := Crowned(Runner(c.nodes[a]), v)][v := Voted(c.nodes[v], a, c.nodes[a].term + 1)]
    ensures Beat(Crowned(Runner(c.nodes[a]), v)) in c'.net
  {
    b', ss', c' := Then(b, ss, c, Expire(a), StartElection(c.nodes[a]));
    b', ss', c' := Campaign(b', ss', c', a, v);
  }

  lemma Opening() returns (b: seq<Cluster>, ss: seq<Step>, c: Cluster)
    ensures Reaches(b, ss, c) && c.nodes == map[1 := NewNode(1), 2 := NewNode(2), 3 := NewNode(3)]
  {
    c := Cluster(3, map[1 := NewNode(1), 2 := NewNode(2), 3 := NewNode(3)], {}, map[]);
    assert c.nodes.Keys == {1, 2, 3};
    b, ss := [c], [];
  }

  /** Node 2 has voted for node 3 in term 1; hearing node 1's heartbeat of term 0 makes it forget that. */
  lemma Forgets(b: seq<Cluster>, ss: seq<Step>, c: Cluster, stale: Message)
      returns (b': seq<Cluster>, ss': seq<Step>, c': Cluster)
    requires Reaches(b, ss, c) && 2 in c.nodes && c.nodes[2].role == Follower && c.nodes[2].prevLogIndex == DEFAULT_DATA
    requires stale in c.net && stale.Heartbeat?
    ensures Reaches(b', ss', c') && b <= b' && ss <= ss'
    ensures c'.nodes == c.nodes[2 := BackToFollower(Runner(c.nodes[2]), stale.term)]
  {
    b', ss', c' := Then(b, ss, c, Expire(2), StartElection(c.nodes[2]));
    b', ss', c' := Then(b', ss', c', Deliver(2, stale), Outcome(BackToFollower(Runner(c.nodes[2]), stale.term), []));
  }

  /** Node 1 wins term 0 and then node 3 wins term 1, both with node 2's vote. */
  lemma OneThenAnother() returns (b: seq<Cluster>, ss: seq<Step>, c: Cluster)
    ensures Reaches(b, ss, c) && c.nodes.Keys == {1, 2, 3}
    ensures var first, third := Crowned(Runner(NewNode(1)), 2), Runner(Runner(NewNode(3)));
            && c.nodes[1] == first && Beat(first) in c.net
            && c.nodes[3] == Crowned(third, 2)
            && c.nodes[2] == Voted(Voted(NewNode(2), 1, 0), 3, 1)
  {
    b, ss, c := Opening();
    b, ss, c := Elects(b, ss, c, 1, 2);
    b, ss, c := Then(b, ss, c, Expire(3), StartElection(c.nodes[3]));
    b, ss, c := Elects(b, ss, c, 3, 2);
  }

  /** Node 2 votes for node 3 in term 1, loses contact, hears node 1's heartbeat of term 0 and so forgets term 1,
      and then votes for node 1 in term 1 as well. */
  lemma TwoLeadersInOneTerm() returns (b: seq<Cluster>, ss: seq<Step>, i: nat, j: nat)
    ensures Run(b, ss) && i < |b| && j < |b| && 1 in b[i].nodes && 3 in b[j].nodes
    ensures b[i].nodes[1].role == Leader && b[j].nodes[3].role == Leader
    ensures b[i].nodes[1].term == b[j].nodes[3].term == 1
  {
    var c;
    b, ss, c := OneThenAnother();
    var first := c.nodes[1];
    j := |b| - 1;
    b, ss, c := Forgets(b, ss, c, Beat(first));
    b, ss, c := Then(b, ss, c, Expire(1), Outcome(BackToFollower(first, 0), []));
    b, ss, c := Elects(b, ss, c, 1, 2);
    i := |b| - 1;
  }
}
