/** One cluster-manager node: the shared `state` record of clusterManager.js and what each role does to it
    when a message arrives or a timer fires. Every function here is one body run under the node's mutex. */
module ElectionNode {

  type NodeId = nat
  type Update = string

  const DEFAULT_DATA := -1

  datatype Role = Follower | Candidate | Leader

  /** `accepted` stands for the runtime data of the node's manager: the updates that produced it, oldest first. */
  datatype Node = Node(
    id: NodeId,
    role: Role,
    term: int,
    leaderId: NodeId,
    commitId: int,
    lastVoteTerm: int,
    lastVoteFor: int,
    voteNum: nat,
    voters: set<NodeId>,
    prevLogIndex: int,
    prevLogTerm: int,
    accepted: seq<Update>)

  datatype Message =
    | Heartbeat(id: NodeId, term: int, commitId: int, prevLogIndex: int, prevLogTerm: int)
    | RequestVote(id: NodeId, term: int, commitId: int, prevLogIndex: int, prevLogTerm: int)
    | ResponseVote(voteGranted: bool, term: int, id: NodeId, commitId: int, voteForTerm: int, voter: NodeId)
    | AppendEntry(id: NodeId, term: int, commitId: int, prevLogIndex: int, prevLogTerm: int, update: Update)
    | SnapshotRequest(id: NodeId, leaderId: NodeId)
    | InstallSnapshot(id: NodeId, term: int, commitId: int, followerId: NodeId, runtime: seq<Update>)

  datatype Outcome = Outcome(node: Node, out: seq<Message>)

  function NewNode(id: NodeId): Node {
    Node(id, Follower, DEFAULT_DATA, 0, DEFAULT_DATA, DEFAULT_DATA, DEFAULT_DATA, 0, {}, DEFAULT_DATA, DEFAULT_DATA, [])
  }

  // ----- the comparisons shared by votes and heartbeats

  predicate TermAhead(n: Node, prevLogIndex: int, prevLogTerm: int) {
    && n.prevLogIndex != DEFAULT_DATA
    && n.prevLogIndex != prevLogIndex
    && n.prevLogTerm > prevLogTerm
  }

  predicate CommitAhead(n: Node, prevLogTerm: int, commitId: int) {
    && n.prevLogIndex != DEFAULT_DATA
    && n.prevLogTerm <= prevLogTerm
    && n.commitId > commitId
  }

  predicate KnowsOtherLeader(n: Node, id: NodeId) {
    n.leaderId != 0 && n.leaderId != id
  }

  function Response(n: Node, m: Message, granted: bool): Message
    requires m.RequestVote?
  {
    ResponseVote(granted, n.term, m.id, n.commitId, m.term, n.id)
  }

  function Beat(n: Node): Message {
    Heartbeat(n.id, n.term, n.commitId, n.prevLogIndex, n.prevLogTerm)
  }

  function Ask(n: Node): Message {
    RequestVote(n.id, n.term, n.commitId, n.prevLogIndex, n.prevLogTerm)
  }

  // ----- role changes

  function StartElection(n: Node): Outcome {
    var c := n.(role := Candidate, leaderId := 0, term := n.term + 1, lastVoteFor := DEFAULT_DATA, voteNum := 0, voters := {});
    Outcome(c, [Ask(c)])
  }

  function BackToFollower(n: Node, term: int): Node {
    n.(role := Follower, leaderId := 0, term := term)
  }

  function TakeLeadership(n: Node): Outcome {
    var l := n.(role := Leader, leaderId := 0);
    Outcome(l, [Beat(l)])
  }

  // ----- follower

  function FollowerReceive(n: Node, m: Message): Outcome {
    match m
    case InstallSnapshot(_, term, commitId, followerId, runtime) =>
      if followerId != n.id || term < n.term || commitId < n.commitId then Outcome(n, [])
      else Outcome(n.(commitId := commitId, term := term, prevLogIndex := commitId, prevLogTerm := term, accepted := runtime), [])
    case AppendEntry(id, term, _, prevLogIndex, prevLogTerm, update) =>
      if KnowsOtherLeader(n, id) || n.term > term then Outcome(n, [])
      else if n.prevLogIndex != DEFAULT_DATA && n.prevLogTerm == prevLogTerm && n.prevLogIndex == prevLogIndex then
        Outcome(n.(leaderId := id, term := term, commitId := n.commitId + 1, prevLogIndex := n.commitId + 1,
                   prevLogTerm := term, accepted := n.accepted + [update]), [])
      else Outcome(n.(leaderId := id, term := term), [])
    case Heartbeat(id, term, _, prevLogIndex, prevLogTerm) =>
      if KnowsOtherLeader(n, id) || n.term > term || TermAhead(n, prevLogIndex, prevLogTerm) then Outcome(n, [])
      else Outcome(n.(leaderId := id, term := term), [])
    case RequestVote(id, term, commitId, prevLogIndex, prevLogTerm) =>
      if KnowsOtherLeader(n, id) || term < n.term then Outcome(n, [Response(n, m, false)])
      else
        var v := n.(term := term);
        if v.lastVoteFor != DEFAULT_DATA && v.lastVoteTerm == term then
          Outcome(v, if v.lastVoteFor == id then [Response(v, m, true)] else [])
        else if TermAhead(v, prevLogIndex, prevLogTerm) || CommitAhead(v, prevLogTerm, commitId) then
          Outcome(v, [Response(v, m, false)])
        else
          Outcome(v.(lastVoteTerm := term, lastVoteFor := id), [Response(v, m, true)])
    case _ => Outcome(n, [])
  }

  // ----- candidate

  predicate ActsOnHeartbeat(n: Node, m: Message)
    requires m.Heartbeat?
  {
    !TermAhead(n, m.prevLogIndex, m.prevLogTerm) && !CommitAhead(n, m.prevLogTerm, m.commitId)
  }

  function CandidateReceive(totalNode: nat, n: Node, m: Message): Outcome {
    match m
    case RequestVote(id, term, commitId, prevLogIndex, prevLogTerm) =>
      if term < n.term then Outcome(n, [Response(n, m, false)])
      else
        // A newer term turns the candidate into a follower, and the vote is still decided in the same body.
        var v := if term > n.term then BackToFollower(n, term) else n;
        if v.lastVoteFor != DEFAULT_DATA && v.lastVoteTerm == term then
          Outcome(v, [Response(v, m, v.lastVoteFor == id)])
        else if TermAhead(v, prevLogIndex, prevLogTerm) || CommitAhead(v, prevLogTerm, commitId) then
          Outcome(v, [Response(v, m, false)])
        else
          Outcome(v.(lastVoteTerm := term, lastVoteFor := id), [Response(v, m, true)])
    case ResponseVote(voteGranted, term, id, _, voteForTerm, voter) =>
      if term > n.term && id == n.id && voteForTerm == n.term then Outcome(BackToFollower(n, term), [])
      else if voteGranted && voteForTerm == n.term && id == n.id && voter !in n.voters then
        var v := n.(voters := n.voters + {voter}, voteNum := n.voteNum + 1);
        if v.voteNum > totalNode / 2 then TakeLeadership(v) else Outcome(v, [])
      else Outcome(n, [])
    case Heartbeat(_, term, _, _, _) =>
      if ActsOnHeartbeat(n, m) then Outcome(BackToFollower(n, term), []) else Outcome(n, [])
    case _ => Outcome(n, [])
  }

  // ----- leader

  function LeaderReceive(n: Node, m: Message): Outcome {
    match m
    case SnapshotRequest(id, leaderId) =>
      if id == n.id || leaderId != n.id then Outcome(n, [])
      else Outcome(n, [InstallSnapshot(n.id, n.term, n.commitId, id, n.accepted)])
    case Heartbeat(id, term, _, _, _) =>
      if id != n.id && term > n.term then Outcome(BackToFollower(n, term), []) else Outcome(n, [])
    case _ => Outcome(n, [])
  }

  function PublishUpdate(n: Node, u: Update): Outcome {
    var c := n.commitId + 1;
    Outcome(n.(commitId := c, prevLogIndex := c, prevLogTerm := n.term, accepted := n.accepted + [u]),
            [AppendEntry(n.id, n.term, c, n.prevLogIndex, n.prevLogTerm, u)])
  }

  // ----- any role

  function Receive(totalNode: nat, n: Node, m: Message): Outcome {
    match n.role
    case Follower => FollowerReceive(n, m)
    case Candidate => CandidateReceive(totalNode, n, m)
    case Leader => LeaderReceive(n, m)
  }

  function Timeout(n: Node): Outcome {
    if n.role == Leader then Outcome(BackToFollower(n, n.term), []) else StartElection(n)
  }
}
