/** The cluster as a transition system: any number of nodes and an unordered network that may lose, delay and
    repeat messages (a message once sent can be delivered any number of times, to any node, or never). */
module ElectionCluster {
  import opened ElectionNode

  /** What is remembered of a leader: the term's winner, who voted for it, and the updates it holds. */
  datatype Reign = Reign(leader: NodeId, backers: set<NodeId>, log: seq<Update>)

  datatype Cluster = Cluster(totalNode: nat, nodes: map<NodeId, Node>, net: set<Message>, reigns: map<int, Reign>)

  datatype Step =
    | Deliver(n: NodeId, m: Message)
    | Expire(n: NodeId)
    | SendHeartbeat(n: NodeId)
    | Publish(n: NodeId, u: Update)
    | RequestSnapshot(n: NodeId)

  predicate Enabled(c: Cluster, s: Step) {
    && s.n in c.nodes
    && match s
       case Deliver(_, m) => m in c.net
       case SendHeartbeat(n) => c.nodes[n].role == Leader
       case Publish(n, _) => c.nodes[n].role == Leader
       case _ => true
  }

  function React(totalNode: nat, n: Node, s: Step): Outcome {
    match s
    case Deliver(_, m) => Receive(totalNode, n, m)
    case Expire(_) => Timeout(n)
    case SendHeartbeat(_) => Outcome(n, [Beat(n)])
    case Publish(_, u) => PublishUpdate(n, u)
    case RequestSnapshot(_) => Outcome(n, [SnapshotRequest(n.id, n.leaderId)])
  }

  /** Node n's state becomes o.node and its messages join the network. */
  function Extend(c: Cluster, n: NodeId, o: Outcome): Cluster
    requires n in c.nodes
  {
    Cluster(c.totalNode, c.nodes[n := o.node], c.net + (set m | m in o.out),
            if o.node.role == Leader
            then c.reigns[o.node.term := Reign(o.node.id, o.node.voters, o.node.accepted)]
            else c.reigns)
  }

  function Apply(c: Cluster, s: Step): Cluster
    requires s.n in c.nodes
  {
    Extend(c, s.n, React(c.totalNode, c.nodes[s.n], s))
  }

  ghost predicate Init(c: Cluster) {
    && |c.nodes.Keys| <= c.totalNode
    && (forall n <- c.nodes :: c.nodes[n] == NewNode(n))
    && c.net == {} && c.reigns == map[]
  }

  /** The one hypothesis on runs: a candidate acts only on heartbeats that are not older than its own term. */
  predicate Fresh(c: Cluster, s: Step)
    requires s.n in c.nodes
  {
    (s.Deliver? && s.m.Heartbeat? && c.nodes[s.n].role == Candidate && ActsOnHeartbeat(c.nodes[s.n], s.m)) ==>
      s.m.term >= c.nodes[s.n].term
  }

  ghost predicate Run(b: seq<Cluster>, ss: seq<Step>) {
    && |b| == |ss| + 1
    && Init(b[0])
    && forall i :: 0 <= i < |ss| ==> Enabled(b[i], ss[i]) && b[i + 1] == Apply(b[i], ss[i])
  }

  ghost predicate FreshRun(b: seq<Cluster>, ss: seq<Step>) {
    Run(b, ss) && forall i :: 0 <= i < |ss| ==> Fresh(b[i], ss[i])
  }
}
