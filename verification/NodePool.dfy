/** The pool of worker processes of one agent. Rooms are put on idle nodes; a node that is in use can be handed out
    again when the pool is full. */
module NodePool {
  import opened Options
  import opened Sequences

  type Room = string
  type Task = string

  /** Undefined is what taking the first of an empty list gives. */
  datatype NodeId = Undefined | Node(index: nat)

  datatype Spec = Spec(prerunNodeNum: int, maxNodeNum: int, reuseNode: bool, consumeNodeByRoom: bool)

  /** Every live process is in exactly one of the two lists, once. */
  ghost predicate Listed(nodes: seq<NodeId>, idle: seq<NodeId>, live: set<NodeId>) {
    && Distinct(nodes + idle)
    && (forall n <- nodes :: n in live)
    && (forall n <- idle :: n in live)
    && (forall n <- live :: n in nodes || n in idle)
  }

  ghost predicate OneNodePerRoom(tasks: map<NodeId, map<Room, seq<Task>>>) {
    forall m, n, r :: m in tasks && n in tasks && r in tasks[m] && r in tasks[n] ==> m == n
  }

  predicate Holds(tasks: map<NodeId, map<Room, seq<Task>>>, n: NodeId, room: Room) {
    n in tasks && room in tasks[n]
  }

  predicate Between(n: NodeId, first: nat, next: nat) {
    n.Node? && first <= n.index < next
  }

  /** The ids handed out while the counter goes from one value to another. */
  function Numbered(first: nat, next: nat): (l: seq<NodeId>)
    requires first <= next
    ensures |l| == next - first && forall i :: 0 <= i < |l| ==> l[i] == Node(first + i)
  {
    seq(next - first, i requires 0 <= i => Node(first + i))
  }

  function Without(l: seq<NodeId>, n: NodeId): seq<NodeId> {
    if n in l then WithoutAt(l, IndexOf(l, n)) else l
  }

  lemma WithoutIs(l: seq<NodeId>, n: NodeId)
    requires Distinct(l)
    ensures Distinct(Without(l, n)) && forall m :: m in Without(l, n) <==> m in l && m != n
  {
  }

  lemma DistinctParts(a: seq<NodeId>, b: seq<NodeId>)
    ensures Distinct(a + b) <==> Distinct(a) && Distinct(b) && forall n :: n in a ==> n !in b
  {
    var s := a + b;
    assert forall i :: 0 <= i < |a| ==> s[i] == a[i];
    assert forall i :: 0 <= i < |b| ==> s[|a| + i] == b[i];
    if Distinct(a) && Distinct(b) && forall n :: n in a ==> n !in b {
      forall i, j | 0 <= i < j < |s| ensures s[i] != s[j] {
        if i < |a| <= j {
          assert s[i] in a && s[j] == b[j - |a|];
        } else if j >= |a| {
          assert s[i] == b[i - |a|] && s[j] == b[j - |a|];
        }
      }
    }
  }

  lemma CleanupKeeps(nodes: seq<NodeId>, idle: seq<NodeId>, live: set<NodeId>, n: NodeId)
    requires Listed(nodes, idle, live)
    ensures Listed(Without(nodes, n), Without(idle, n), live - {n})
    ensures |Without(nodes, n)| + |Without(idle, n)| == |nodes| + |idle| - if n in live then 1 else 0
  {
    DistinctParts(nodes, idle);
    WithoutIs(nodes, n);
    WithoutIs(idle, n);
    DistinctParts(Without(nodes, n), Without(idle, n));
  }

  lemma LaunchKeeps(nodes: seq<NodeId>, idle: seq<NodeId>, live: set<NodeId>, n: NodeId)
    requires Listed(nodes, idle, live) && n !in live
    ensures Listed(nodes, idle + [n], live + {n})
  {
    assert nodes + (idle + [n]) == (nodes + idle) + [n];
    assert n !in nodes + idle;
  }

  lemma PickKeeps(nodes: seq<NodeId>, idle: seq<NodeId>, live: set<NodeId>)
    requires Listed(nodes, idle, live) && idle != []
    ensures Listed(nodes + [idle[0]], idle[1..], live)
  {
    assert nodes + idle == (nodes + [idle[0]]) + idle[1..];
  }

  /** Handing out again the node that has been in use longest is sound exactly when there is one. */
  lemma RotationKeeps(nodes: seq<NodeId>, idle: seq<NodeId>, live: set<NodeId>)
    requires Listed(nodes, idle, live) && Undefined !in live
    ensures nodes != [] ==> Listed(nodes[1..], idle + [nodes[0]], live)
    ensures nodes == [] ==> !Listed(nodes, idle + [Undefined], live)
  {
    if nodes != [] {
      var rest, full := nodes[1..], idle + [nodes[0]];
      DistinctParts(nodes, idle);
      assert nodes[0] in nodes;
      assert nodes == [nodes[0]] + rest;
      DistinctParts([nodes[0]], rest);
      DistinctParts(idle, [nodes[0]]);
      DistinctParts(rest, full);
    } else {
      assert (idle + [Undefined])[|idle|] == Undefined;
    }
  }

  class NodePool {
    const spec: Spec
    var nodeIndex: nat
    var idleNodes: seq<NodeId>
    var nodes: seq<NodeId>
    var processes: set<NodeId>
    var tasks: map<NodeId, map<Room, seq<Task>>>
    var spawnFailed: bool

    ghost predicate Valid()
      reads this
    {
      && Listed(nodes, idleNodes, processes)
      && (forall n <- processes :: Between(n, 0, nodeIndex))
      && tasks.Keys <= processes
      && (spec.maxNodeNum >= 0 ==> Running() <= spec.maxNodeNum)
      && (spec.consumeNodeByRoom ==> OneNodePerRoom(tasks))
      && (!spec.reuseNode ==> forall n <- idleNodes :: n in tasks ==> tasks[n] == map[])
    }

    function Running(): nat
      reads this
    {
      |nodes| + |idleNodes|
    }

    /** How many more nodes the pool wants and may have. */
    function Missing(): int
      reads this
    {
      var space := spec.prerunNodeNum - |idleNodes|;
      if spec.maxNodeNum < 0 then space
      else if space < spec.maxNodeNum - Running() then space
      else spec.maxNodeNum - Running()
    }

    /** As many nodes are idle as wanted, or the pool is as large as it may be. */
    predicate Filled()
      reads this
    {
      |idleNodes| >= spec.prerunNodeNum || (spec.maxNodeNum >= 0 && Running() >= spec.maxNodeNum)
    }

    constructor (spec: Spec)
      ensures Valid() && this.spec == spec && nodes == [] && tasks.Keys == processes && !spawnFailed
      ensures Filled()
      ensures idleNodes == Numbered(0, nodeIndex)
      ensures forall n <- tasks :: tasks[n] == map[]
      ensures var wanted := if 0 <= spec.maxNodeNum < spec.prerunNodeNum then spec.maxNodeNum else spec.prerunNodeNum;
              nodeIndex == if wanted > 0 then wanted else 0
    {
      this.spec := spec;
      nodeIndex, idleNodes, nodes, processes, tasks, spawnFailed := 0, [], [], {}, map[], false;
      new;
      FillNodes();
      assert forall n :: n in tasks <==> n in processes;
    }

    method LaunchNode()
      requires Valid() && (spec.maxNodeNum >= 0 ==> Running() < spec.maxNodeNum)
      modifies this
      ensures Valid() && nodes == old(nodes) && spawnFailed == old(spawnFailed)
      ensures nodeIndex == old(nodeIndex) + 1 && idleNodes == old(idleNodes) + [Node(old(nodeIndex))]
      ensures processes == old(processes) + {Node(old(nodeIndex))} && tasks == old(tasks)[Node(old(nodeIndex)) := map[]]
    {
      var id := Node(nodeIndex);
      nodeIndex := nodeIndex + 1;
      LaunchKeeps(nodes, idleNodes, processes, id);
      processes := processes + {id};
      tasks := tasks[id := map[]];
      idleNodes := idleNodes + [id];
    }

    /** Tops the idle list up with new nodes, as far as the maximum allows. */
    method FillNodes()
      requires Valid()
      modifies this
      ensures Valid() && nodes == old(nodes) && spawnFailed == old(spawnFailed) && nodeIndex >= old(nodeIndex)
      ensures Filled() && (nodeIndex > old(nodeIndex) ==> |idleNodes| <= spec.prerunNodeNum)
      ensures idleNodes == old(idleNodes) + Numbered(old(nodeIndex), nodeIndex)
      ensures forall n :: n in processes <==> n in old(processes) || Between(n, old(nodeIndex), nodeIndex)
      ensures forall n :: n in tasks <==> n in old(tasks) || Between(n, old(nodeIndex), nodeIndex)
      ensures forall n <- tasks :: tasks[n] == if n in old(tasks) then old(tasks)[n] else map[]
    {
      var nodesToStart := Missing();
      var i: nat := 0;
      while i < nodesToStart
        invariant nodesToStart >= 0 ==> i <= nodesToStart
        invariant nodesToStart < 0 ==> i == 0
        invariant Valid() && nodes == old(nodes) && spawnFailed == old(spawnFailed)
        invariant nodeIndex == old(nodeIndex) + i && Missing() == nodesToStart - i
        invariant idleNodes == old(idleNodes) + Numbered(old(nodeIndex), nodeIndex)
        invariant forall n :: n in processes <==> n in old(processes) || Between(n, old(nodeIndex), nodeIndex)
        invariant forall n :: n in tasks <==> n in old(tasks) || Between(n, old(nodeIndex), nodeIndex)
        invariant forall n <- tasks :: tasks[n] == if n in old(tasks) then old(tasks)[n] else map[]
      {
        LaunchNode();
        i := i + 1;
      }
    }

    method CleanupNode(id: NodeId)
      requires Valid() && id in processes
      modifies this
      ensures Valid() && processes == old(processes) - {id} && tasks == old(tasks) - {id}
      ensures nodes == Without(old(nodes), id) && idleNodes == Without(old(idleNodes), id)
      ensures Running() == old(Running()) - 1 && nodeIndex == old(nodeIndex) && spawnFailed == old(spawnFailed)
    {
      CleanupKeeps(nodes, idleNodes, processes, id);
      processes := processes - {id};
      tasks := tasks - {id};
      nodes := Without(nodes, id);
      idleNodes := Without(idleNodes, id);
    }

    method DropNode(id: NodeId)
      requires Valid()
      modifies this
      ensures Valid() && processes == old(processes) - {id} && tasks == old(tasks) - {id}
      ensures nodes == Without(old(nodes), id) && idleNodes == Without(old(idleNodes), id)
      ensures nodeIndex == old(nodeIndex) && spawnFailed == old(spawnFailed)
    {
      if id in processes {
        CleanupNode(id);
      } else {
        assert id !in nodes && id !in idleNodes;
      }
    }

    /** A process has ended, whether or not it was dropped before. */
    method Closed(id: NodeId)
      requires Valid()
      modifies this
      ensures Valid() && spawnFailed == old(spawnFailed) && nodes == Without(old(nodes), id)
      ensures if spawnFailed then nodeIndex == old(nodeIndex) else Filled()
      ensures nodeIndex > old(nodeIndex) ==> |idleNodes| <= spec.prerunNodeNum
      ensures nodeIndex >= old(nodeIndex)
      ensures idleNodes == Without(old(idleNodes), id) + Numbered(old(nodeIndex), nodeIndex)
      ensures forall n :: n in processes <==> (n in old(processes) && n != id) || Between(n, old(nodeIndex), nodeIndex)
      ensures forall n :: n in tasks <==> (n in old(tasks) && n != id) || Between(n, old(nodeIndex), nodeIndex)
      ensures forall n <- tasks :: tasks[n] == if n in old(tasks) then old(tasks)[n] else map[]
    {
      if id in processes {
        CleanupNode(id);
      } else {
        assert id !in nodes;
      }
      if !spawnFailed {
        FillNodes();
      }
    }

    /** A process reports that it cannot start. The source trips over a process it has dropped already. */
    method Failed(id: NodeId) returns (threw: bool)
      requires Valid()
      modifies this
      ensures Valid() && (threw <==> id !in old(processes))
      ensures processes == old(processes) - {id} && tasks == old(tasks) - {id}
      ensures nodes == Without(old(nodes), id) && idleNodes == Without(old(idleNodes), id)
    {
      threw := id !in processes;
      if !threw {
        CleanupNode(id);
      } else {
        assert id !in nodes && id !in idleNodes;
      }
    }

    method Recover()
      requires Valid()
      modifies this
      ensures Valid() && !spawnFailed && Filled() && nodes == old(nodes) && nodeIndex >= old(nodeIndex)
      ensures idleNodes == old(idleNodes) + Numbered(old(nodeIndex), nodeIndex)
      ensures nodeIndex > old(nodeIndex) ==> |idleNodes| <= spec.prerunNodeNum
      ensures forall n :: n in processes <==> n in old(processes) || Between(n, old(nodeIndex), nodeIndex)
    {
      spawnFailed := false;
      FillNodes();
    }

    method DropAllNodes()
      requires Valid()
      modifies this
      ensures Valid() && spawnFailed && processes == {} && tasks == map[] && nodes == [] && idleNodes == []
    {
      spawnFailed := true;
      var keys := nodes + idleNodes;
      for i := 0 to |keys|
        invariant Valid() && spawnFailed
        invariant forall n <- processes :: n in keys[i..]
      {
        DropNode(keys[i]);
      }
      assert keys[|keys|..] == [] && forall n: NodeId :: n !in processes;
      NobodyListed(nodes, idleNodes, processes);
    }

    method FindNodeUsedByRoom(list: seq<NodeId>, room: Room) returns (node: Option<NodeId>)
      ensures node.Some? ==> node.value in list && Holds(tasks, node.value, room)
      ensures node.None? ==> forall n <- list :: !Holds(tasks, n, room)
    {
      for i := 0 to |list|
        invariant forall k :: 0 <= k < i ==> !Holds(tasks, list[k], room)
      {
        if list[i] in tasks && room in tasks[list[i]] {
          return Some(list[i]);
        }
      }
      node := None;
    }

    /** Takes the idle node that has been idle longest. */
    method PickInIdle(room: Room) returns (node: Option<NodeId>)
      requires Valid() && (spec.consumeNodeByRoom ==> forall n :: !Holds(tasks, n, room))
      modifies this
      ensures Valid() && processes == old(processes) && spawnFailed == old(spawnFailed) && nodeIndex == old(nodeIndex)
      ensures node.None? <==> old(idleNodes) == []
      ensures node.None? ==> nodes == old(nodes) && idleNodes == old(idleNodes) && tasks == old(tasks)
      ensures node.Some? ==>
                && node.value == old(idleNodes)[0] && node.value !in idleNodes && idleNodes == old(idleNodes)[1..]
                && nodes == old(nodes) + [node.value]
                && tasks == old(tasks)[node.value := WithRoom(old(tasks), node.value, room)]
    {
      if idleNodes == [] {
        return None;
      }
      PickKeeps(nodes, idleNodes, processes);
      var id := idleNodes[0];
      assert idleNodes == [id] + idleNodes[1..];
      DistinctParts(nodes, idleNodes);
      DistinctParts([id], idleNodes[1..]);
      if spec.consumeNodeByRoom {
        RoomJoins(tasks, id, room);
      }
      idleNodes := idleNodes[1..];
      tasks := tasks[id := WithRoom(tasks, id, room)];
      nodes := nodes + [id];
      node := Some(id);
    }

    /** What happens right after a node was picked: the pool is topped up, or, when it is full, the node that has been
        in use longest can be picked again. */
    method AfterPick()
      requires Valid()
      modifies this
      ensures var room := spec.maxNodeNum < 0 || old(Running()) < spec.maxNodeNum;
              && (Valid() <==> (!room && spec.reuseNode ==> old(nodes) != []))
              && nodeIndex >= old(nodeIndex)
              && (room ==> Filled() && nodes == old(nodes) && idleNodes == old(idleNodes) + Numbered(old(nodeIndex), nodeIndex))
              && (room && nodeIndex > old(nodeIndex) ==> |idleNodes| <= spec.prerunNodeNum)
              && (forall n <- old(tasks) :: n in tasks && tasks[n] == old(tasks)[n])
              && (!room ==> nodeIndex == old(nodeIndex) && processes == old(processes) && tasks == old(tasks))
              && (!room && spec.reuseNode && old(nodes) != [] ==>
                    nodes == old(nodes)[1..] && idleNodes == old(idleNodes) + [old(nodes)[0]])
              && (!room && spec.reuseNode && old(nodes) == [] ==>
                    nodes == [] && idleNodes == old(idleNodes) + [Undefined])
              && (!room && !spec.reuseNode ==> nodes == old(nodes) && idleNodes == old(idleNodes))
    {
      if spec.maxNodeNum < 0 || Running() < spec.maxNodeNum {
        FillNodes();
      } else if spec.reuseNode {
        RotationKeeps(nodes, idleNodes, processes);
        if nodes != [] {
          idleNodes, nodes := idleNodes + [nodes[0]], nodes[1..];
        } else {
          idleNodes := idleNodes + [Undefined];
        }
      }
    }

    /** The node that serves a room: with room affinity the one that has the room already. */
    method GetNode(room: Room) returns (node: Option<NodeId>)
      requires Valid()
      modifies this
      ensures Valid() && processes == old(processes) && nodeIndex == old(nodeIndex) && spawnFailed == old(spawnFailed)
      ensures node.Some? ==> node.value in processes && Holds(tasks, node.value, room)
      ensures var kept := spec.consumeNodeByRoom && exists n :: Holds(old(tasks), n, room);
              && (kept ==> node.Some? && Holds(old(tasks), node.value, room)
                           && nodes == old(nodes) && idleNodes == old(idleNodes) && tasks == old(tasks))
              && (!kept ==> (node.None? <==> old(idleNodes) == []))
              && (!kept && node.Some? ==>
                    && node.value == old(idleNodes)[0] && node.value !in idleNodes && idleNodes == old(idleNodes)[1..]
                    && nodes == old(nodes) + [node.value]
                    && tasks == old(tasks)[node.value := WithRoom(old(tasks), node.value, room)])
      ensures spec.consumeNodeByRoom && node.Some? ==> forall n :: Holds(tasks, n, room) ==> n == node.value
      ensures !spec.reuseNode && node.Some? && !(spec.consumeNodeByRoom && Holds(old(tasks), node.value, room)) ==>
                tasks[node.value] == map[room := []]
    {
      node := None;
      if spec.consumeNodeByRoom {
        node := FindNodeUsedByRoom(nodes, room);
        if node.None? {
          node := FindNodeUsedByRoom(idleNodes, room);
        }
      }
      if node.None? {
        node := PickInIdle(room);
      }
    }

    /** The node asked for is ready, or has failed to get ready: the task is put on it, or the node's record goes.
        The record also goes when the room has left the node meanwhile. */
    method Settle(node: NodeId, room: Room, task: Task, ready: bool) returns (ok: bool, reported: bool)
      requires Valid()
      modifies this`tasks
      ensures Valid()
      ensures ok <==> ready && Holds(old(tasks), node, room)
      ensures if ok then tasks == old(tasks)[node := old(tasks)[node][room := old(tasks)[node][room] + [task]]]
              else tasks == old(tasks) - {node}
      ensures reported <==> ok && task !in old(tasks)[node][room]
    {
      ok, reported := false, false;
      if ready && node in tasks && room in tasks[node] {
        reported := task !in tasks[node][room];
        tasks := tasks[node := tasks[node][room := tasks[node][room] + [task]]];
        ok := true;
      } else {
        tasks := tasks - {node};
      }
    }

    /** One use of a task ends. The room leaves with its last task, and the node goes with its last room. */
    method RecycleNode(node: NodeId, room: Room, task: Task) returns (reported: bool)
      requires Valid()
      modifies this
      ensures Valid()
      ensures var left := if Holds(old(tasks), node, room) then Taken(old(tasks)[node][room], task) else [];
              var rest := if Holds(old(tasks), node, room) then old(tasks)[node] - {room} else map[];
              && (reported <==> Holds(old(tasks), node, room) && task !in left)
              && (!Holds(old(tasks), node, room) ==> tasks == old(tasks))
              && (left != [] ==> tasks == old(tasks)[node := old(tasks)[node][room := left]])
              && (Holds(old(tasks), node, room) && left == [] ==>
                    tasks == if rest == map[] then old(tasks) - {node} else old(tasks)[node := rest])
              && (processes == if Holds(old(tasks), node, room) && left == [] && rest == map[] then old(processes) - {node}
                               else old(processes))
    {
      reported := false;
      if node in tasks && room in tasks[node] {
        var left := Taken(tasks[node][room], task);
        reported := task !in left;
        if left == [] {
          var rest := tasks[node] - {room};
          tasks := tasks[node := rest];
          if rest == map[] {
            DropNode(node);
          }
        } else {
          tasks := tasks[node := tasks[node][room := left]];
        }
      }
    }
  }

  function WithRoom(tasks: map<NodeId, map<Room, seq<Task>>>, n: NodeId, room: Room): map<Room, seq<Task>> {
    var rooms := if n in tasks then tasks[n] else map[];
    if room in rooms then rooms else rooms[room := []]
  }

  /** A room that joins a node is empty unless it was there, and no other room on the node changes. */
  lemma WithRoomIs(tasks: map<NodeId, map<Room, seq<Task>>>, n: NodeId, room: Room)
    ensures var rooms := WithRoom(tasks, n, room);
            && (forall r :: r in rooms <==> Holds(tasks, n, r) || r == room)
            && (forall r <- rooms :: rooms[r] == if Holds(tasks, n, r) then tasks[n][r] else [])
  {
  }

  lemma RoomJoins(tasks: map<NodeId, map<Room, seq<Task>>>, n: NodeId, room: Room)
    requires OneNodePerRoom(tasks) && forall m :: !Holds(tasks, m, room)
    ensures OneNodePerRoom(tasks[n := WithRoom(tasks, n, room)])
  {
    forall m | m in tasks ensures room !in tasks[m] { assert !Holds(tasks, m, room); }
  }

  function Taken(l: seq<Task>, task: Task): seq<Task> {
    if task in l then WithoutAt(l, IndexOf(l, task)) else l
  }

  /** Adding a task and taking it away again restores the room's tasks, and the removal is reported exactly when the
      addition was. */
  lemma AddThenTake(l: seq<Task>, task: Task)
    ensures multiset(Taken(l + [task], task)) == multiset(l)
    ensures task !in Taken(l + [task], task) <==> task !in l
  {
    var m := l + [task];
    assert m[|l|] == task;
    var i := IndexOf(m, task);
    assert m == m[..i] + [task] + m[i + 1..];
    assert multiset(m) == multiset(Taken(m, task)) + multiset{task};
    assert multiset(m) == multiset(l) + multiset{task};
    assert multiset(l) == multiset(m) - multiset{task};
    assert task in Taken(m, task) <==> task in multiset(Taken(m, task));
    assert task in l <==> task in multiset(l);
  }

  lemma NobodyListed(nodes: seq<NodeId>, idle: seq<NodeId>, live: set<NodeId>)
    requires Listed(nodes, idle, live)
    ensures live == {} ==> nodes == [] && idle == []
  {
    if nodes != [] {
      var n := nodes[0];
      assert n in nodes;
    }
    if idle != [] {
      var n := idle[0];
      assert n in idle;
    }
  }

  method OnlyNodeInUse(room: Room) returns (pool: NodePool, node: Option<NodeId>)
    ensures fresh(pool) && pool.Valid() && pool.spec == Spec(1, 1, true, true) && !pool.spawnFailed && pool.nodeIndex == 1
    ensures node == Some(Node(0)) && pool.nodes == [Node(0)] && pool.idleNodes == []
  {
    pool := new NodePool(Spec(1, 1, true, true));
    assert pool.idleNodes == [Node(0)];
    node := pool.GetNode(room);
  }

  /** A pool of one node: the node is picked, ends before the list is turned, and the turn puts in nothing. */
  method StaleRotation(room: Room) returns (pool: NodePool)
    ensures fresh(pool) && pool.nodes == [] && pool.idleNodes == [Node(1), Undefined] && pool.processes == {Node(1)} && !pool.Valid()
  {
    var n: Option<NodeId>;
    pool, n := OnlyNodeInUse(room);
    pool.Closed(Node(0));
    assert pool.nodes == [] && pool.Filled();
    assert |pool.idleNodes| == 1;
    assert Without([], Node(0)) == [] && pool.idleNodes == Numbered(1, 2) == [Node(1)];
    pool.AfterPick();
  }
}
