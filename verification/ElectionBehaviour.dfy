/** When exactly a node votes, follows, changes its log or changes its role, over every role and every step. */
module ElectionBehaviour {
  import opened ElectionNode
  import opened ElectionCluster

  /** No leader is known, or it is the one named. */
  predicate MayHear(n: Node, id: NodeId) {
    n.leaderId == 0 || n.leaderId == id
  }

  /** The node's log is not later than the one described: it has none, or neither its tag, unless the indices agree,
      nor under a tag that is not later its number of updates exceeds the other's. */
  predicate NotLater(n: Node, prevLogIndex: int, prevLogTerm: int, commitId: int) {
    || n.prevLogIndex == -1
    || (&& (n.prevLogIndex == prevLogIndex || n.prevLogTerm <= prevLogTerm)
        && (n.prevLogTerm <= prevLogTerm ==> n.commitId <= commitId))
  }

  predicate HasVotedIn(n: Node, term: int) {
    n.lastVoteFor != -1 && n.lastVoteTerm == term
  }

  /** A node decides on a request of a term it has not passed, unless it follows another leader. */
  predicate Decides(n: Node, m: Message)
    requires m.RequestVote?
  {
    m.term >= n.term && (n.role == Follower ==> MayHear(n, m.id))
  }

  predicate Votes(n: Node, m: Message)
    requires m.RequestVote?
  {
    && Decides(n, m)
    && if HasVotedIn(n, m.term) then n.lastVoteFor == m.id else NotLater(n, m.prevLogIndex, m.prevLogTerm, m.commitId)
  }

  predicate IsAnswer(n: Node, m: Message, term: int, r: Message, granted: bool)
    requires m.RequestVote?
  {
    r == ResponseVote(granted, term, m.id, n.commitId, m.term, n.id)
  }

  /** A vote is granted exactly when the node decides on the request and has given its vote of that term to the asker,
      or has not given it and holds no later log; otherwise it is refused, except that a follower that has voted for
      somebody else stays silent. The answer goes to the asker and carries the term the node is then in. */
  lemma GrantsExactly(total: nat, n: Node, m: Message)
    requires n.role != Leader && m.RequestVote?
    ensures var o := React(total, n, Deliver(n.id, m));
            && (Votes(n, m) ==> |o.out| == 1 && IsAnswer(n, m, m.term, o.out[0], true)
                                && o.node.lastVoteFor == m.id && o.node.lastVoteTerm == m.term)
            && (!Votes(n, m) ==> o.node.lastVoteFor == n.lastVoteFor && o.node.lastVoteTerm == n.lastVoteTerm)
            && (!Votes(n, m) && n.role == Follower && Decides(n, m) && HasVotedIn(n, m.term) ==> o.out == [])
            && (!Votes(n, m) && !(n.role == Follower && Decides(n, m) && HasVotedIn(n, m.term)) ==>
                  |o.out| == 1 && IsAnswer(n, m, o.node.term, o.out[0], false))
            && o.node.term == (if Decides(n, m) then m.term else n.term)
            && o.node.role == (if n.role == Candidate && m.term > n.term then Follower else n.role)
  {
  }

  /** A follower takes an update exactly from the leader it may hear, of no older term, when its own tag is the tag of
      the entry before; the update's term becomes its tag. */
  predicate Appends(n: Node, s: Step) {
    && n.role == Follower && s.Deliver? && s.m.AppendEntry?
    && MayHear(n, s.m.id) && s.m.term >= n.term
    && n.prevLogIndex != -1 && n.prevLogIndex == s.m.prevLogIndex && n.prevLogTerm == s.m.prevLogTerm
  }

  /** A follower takes a snapshot exactly when it is addressed, of no older term, and no shorter than what it has. */
  predicate Installs(n: Node, s: Step) {
    && n.role == Follower && s.Deliver? && s.m.InstallSnapshot?
    && s.m.followerId == n.id && s.m.term >= n.term && s.m.commitId >= n.commitId
  }

  predicate SameLog(n: Node, d: Node) {
    d.accepted == n.accepted && d.commitId == n.commitId && d.prevLogIndex == n.prevLogIndex && d.prevLogTerm == n.prevLogTerm
  }

  predicate HoldsLog(d: Node, log: seq<Update>, index: int, term: int) {
    d.accepted == log && d.commitId == index && d.prevLogIndex == index && d.prevLogTerm == term
  }

  /** A log changes by appending, by installing and by publishing, each exactly when it may, and in no other way. */
  lemma LogChangesExactly(total: nat, n: Node, s: Step)
    requires s.Publish? ==> n.role == Leader
    ensures var d := React(total, n, s).node;
            && (Appends(n, s) ==> HoldsLog(d, n.accepted + [s.m.update], n.commitId + 1, s.m.term))
            && (Installs(n, s) ==> HoldsLog(d, s.m.runtime, s.m.commitId, s.m.term))
            && (s.Publish? ==> HoldsLog(d, n.accepted + [s.u], n.commitId + 1, n.term))
            && (!Appends(n, s) && !Installs(n, s) && !s.Publish? ==> SameLog(n, d))
  {
  }

  /** A follower takes a node for its leader exactly on an update or heartbeat that it may hear, of no older term, the
      heartbeat not behind its own tag. */
  predicate Accepts(n: Node, s: Step) {
    && n.role == Follower && s.Deliver? && (s.m.AppendEntry? || s.m.Heartbeat?)
    && MayHear(n, s.m.id) && s.m.term >= n.term
    && (s.m.Heartbeat? ==>
          n.prevLogIndex == -1 || n.prevLogIndex == s.m.prevLogIndex || n.prevLogTerm <= s.m.prevLogTerm)
  }

  lemma FollowsExactly(total: nat, n: Node, s: Step)
    requires n.role == Follower && !s.Expire?
    ensures var d := React(total, n, s).node;
            if Accepts(n, s) then d.leaderId == s.m.id && d.term == s.m.term else d.leaderId == n.leaderId
  {
  }

  /** A candidate gives in to a leader whose log is not behind its own, to a vote request or a refusal of a later term. */
  predicate GivesIn(n: Node, m: Message) {
    match m
    case Heartbeat(_, _, commitId, prevLogIndex, prevLogTerm) => NotLater(n, prevLogIndex, prevLogTerm, commitId)
    case RequestVote(_, term, _, _, _) => term > n.term
    case ResponseVote(_, term, id, _, voteForTerm, _) => term > n.term && id == n.id && voteForTerm == n.term
    case _ => false
  }

  /** A grant of this candidacy from a voter that has not been counted. */
  predicate NewGrant(n: Node, m: Message) {
    && n.role == Candidate && !GivesIn(n, m)
    && m.ResponseVote? && m.voteGranted && m.voteForTerm == n.term && m.id == n.id && m.voter !in n.voters
  }

  predicate StepsDown(n: Node, s: Step) {
    || s.Expire?
    || (s.Deliver? && s.m.Heartbeat? && s.m.id != n.id && s.m.term > n.term)
  }

  /** Roles change exactly so: time makes a follower or candidate a candidate of the next term that asks everyone; the
      vote that passes half of the nodes makes a candidate a leader, which says so at once; a candidate gives in, taking
      the other's term; a leader steps down when it no longer hears itself or hears a leader of a later term. */
  lemma RoleChangesExactly(total: nat, n: Node, s: Step)
    ensures var o := React(total, n, s);
            var d := o.node;
            && (n.role == Follower && !s.Expire? ==> d.role == Follower)
            && (n.role != Leader && s.Expire? ==>
                  && d == n.(role := Candidate, leaderId := 0, term := n.term + 1, lastVoteFor := -1, voteNum := 0, voters := {})
                  && o.out == [RequestVote(n.id, n.term + 1, n.commitId, n.prevLogIndex, n.prevLogTerm)])
            && (n.role == Candidate && !s.Expire? ==>
                  && (d.role == Leader <==> s.Deliver? && NewGrant(n, s.m) && n.voteNum + 1 > total / 2)
                  && (d.role == Follower <==> s.Deliver? && GivesIn(n, s.m))
                  && (d.role == Follower ==> d.term == s.m.term && d.leaderId == 0)
                  && (d.role == Leader ==>
                        o.out == [Heartbeat(n.id, n.term, n.commitId, n.prevLogIndex, n.prevLogTerm)] && d.term == n.term)
                  && (if s.Deliver? && NewGrant(n, s.m) then d.voters == n.voters + {s.m.voter} && d.voteNum == n.voteNum + 1
                      else d.voters == n.voters && d.voteNum == n.voteNum))
            && (n.role == Leader ==>
                  && d.role == (if StepsDown(n, s) then Follower else Leader)
                  && d.term == (if StepsDown(n, s) && s.Deliver? then s.m.term else n.term)
                  && d.leaderId == (if StepsDown(n, s) then 0 else n.leaderId))
  {
  }

  /** A leader sends its log exactly to another node that takes it for its leader and asks; with an update goes the tag
      of the entry before it. */
  lemma LeaderSendsExactly(total: nat, n: Node, s: Step)
    requires n.role == Leader
    ensures var out := React(total, n, s).out;
            && (s.Deliver? && s.m.SnapshotRequest? && s.m.id != n.id && s.m.leaderId == n.id ==>
                  out == [InstallSnapshot(n.id, n.term, n.commitId, s.m.id, n.accepted)])
            && (s.Publish? ==> out == [AppendEntry(n.id, n.term, n.commitId + 1, n.prevLogIndex, n.prevLogTerm, s.u)])
            && (s.SendHeartbeat? ==> out == [Heartbeat(n.id, n.term, n.commitId, n.prevLogIndex, n.prevLogTerm)])
            && (s.Expire? || (s.Deliver? && !(s.m.SnapshotRequest? && s.m.id != n.id && s.m.leaderId == n.id)) ==> out == [])
  {
  }

  // ----- catching up

  /** A follower that hears its leader catches up with its log by one exchange of messages: it asks, the leader sends.
      The snapshot is tagged with the leader's term, so the leader's next update fits if and only if the leader has
      tagged its own log with that term, that is, has published in it already. */
  lemma CatchesUp(total: nat, f: Node, l: Node, u: Update)
    requires f.role == Follower && l.role == Leader && f.id != l.id && MayHear(f, l.id) && f.term <= l.term
    requires f.commitId <= l.commitId && l.commitId == l.prevLogIndex != -1
    requires f.prevLogIndex == -1 || f.prevLogIndex == l.prevLogIndex || f.prevLogTerm <= l.prevLogTerm
    ensures var beat := React(total, l, SendHeartbeat(l.id)).out;
            && |beat| == 1
            && var heard := React(total, f, Deliver(f.id, beat[0])).node;
            var asked := React(total, heard, RequestSnapshot(f.id)).out;
            && |asked| == 1
            && var sent := React(total, l, Deliver(l.id, asked[0]));
            && |sent.out| == 1 && sent.node == l
            && var f1 := React(total, heard, Deliver(f.id, sent.out[0])).node;
            var said := React(total, l, Publish(l.id, u));
            && |said.out| == 1
            && var f2 := React(total, f1, Deliver(f.id, said.out[0])).node;
            && f1.accepted == l.accepted && f1.leaderId == l.id && f1.term == l.term
            && said.node.accepted == l.accepted + [u]
            && f2.accepted == if l.prevLogTerm == l.term then said.node.accepted else l.accepted
  {
  }
}
