# Verified models of the Open WebRTC Toolkit media server

This project models, in Dafny, the components of the media server whose correctness rests on state kept over time, and
proves what they are for. The models follow the JavaScript sources branch by branch: the objects that update their
fields are classes proved against specification functions, and the protocols are transition systems over those same
functions. `dafny verify dfyconfig.toml` checks everything.

* **Replicated cluster manager** (`ElectionNode`, `ElectionManager`, `ElectionCluster`, `ElectionInvariant`,
  `ElectionPreservation`, `ElectionVotes`, `ElectionSafety`, `ElectionBehaviour`, `ElectionRestriction`,
  `StaleHeartbeat`). A hand-written variant of Raft: followers, candidates and leaders, votes per term, heartbeats,
  appending by (prevLogTerm, prevLogIndex), snapshots. Any number of nodes exchange messages over a network that may
  lose, delay, reorder and repeat them. One leader per term (section 5.2 of "In Search of an Understandable Consensus
  Algorithm" by Ongaro and Ousterhout) and log matching (section 5.3) are proved over whole runs. The code does not
  check the term of a heartbeat heard by a candidate, and so election safety needs a hypothesis: that no candidate
  acts on a heartbeat that is both older than its term and not later than the last vote it granted
  (`OneLeaderPerTerm`). `TwoLeadersInOneTerm` gives a run of three nodes that elects two leaders in one term without
  it, and `TermFallsIffStaleHeartbeat` shows that a term falls only by a candidate acting on a heartbeat older than
  it. Log matching needs only that no term is won twice, which holds when candidates act on no heartbeat older than
  their term.
* **Snapshot lock** (`SnapshotLock`). The mutex with its queue of waiters and the flag that guards one snapshot
  installation at a time, under every interleaving of calls, grants, stale timers and arriving snapshots.
* **Scheduler** (`SchedulerModel`, `SchedulerRuns`, `SchedulerResults`, `Scheduler`, `Matcher`, `Strategy`). Tasks are
  bound to workers by reservations with timers, until a worker reports that it runs them. That every record is held by a
  live timer or by its running worker is an invariant of all runs; that it is held by exactly one of them is not:
  a task that is unscheduled while it runs and then scheduled to the same worker again is held by both
  (`ReclaimHappens`). `AlwaysExclusive` says over whole runs that this is the only way, and `FreshScheduleIsExclusive`
  says it before the request: whatever the strategy answers, all is well exactly when no worker the task could be given
  to is still running it.
* **Weighted round robin** (`WeightRobin`, `Fairness`). Smooth weighted round robin is exactly fair.
* **Worker protocol** (`ClusterWorker`, `WorkerAgreement`). A worker joins, loses contact, rejoins and reports its
  tasks. The manager's list, with the reports still in flight applied, is at every moment the worker's own task set, if
  and only if no first join finds the worker already holding tasks: those are never reported (`UnreportedTask`).
* **Video mixer** (`InputManager`, `Layout`, `VMixer`). A bounded slot allocator with a queue of waiting streams, and the
  layout that must show exactly the active slots.
* **Node pool** (`NodePool`). A bounded pool of processes with room affinity. The turn of the in-use list that runs
  after a pick is sound exactly when the list is not empty; `StaleRotation` reaches the other case.
* **Link graph** (`Connections`). Links between incoming and outgoing connections, kept in the destinations' records and
  in the sources' native lists. A request for links does not look at the links or directions that are already there;
  `LinkupKeeps` says exactly when it keeps the two places in step.
* **Selective mixer** (`SelectiveMixer`). Only the k loudest streams are mixed, whatever way the ranking is shuffled.
* **Default bitrates** (`Bitrate`). A piecewise linear curve, which jumps only at zero.

`Sequences` and `Options` hold what several components share.

Conventions. Node ids, stream ids, rooms and tasks are plain values. What the environment decides (which message arrives,
which timer fires, whether the native engine accepts an input, what a random number is) is a step or a parameter, so
every statement holds for all choices. Numbers derived from loads are given as integers or reals; arithmetic is exact.

## Model

| member | source | states |
|---|---|---|
| ElectionSafety.ElectionSafety | source/cluster_manager/clusterManager.js:1239-1330 | In every run in which candidates act only on heartbeats not older than their term, two nodes that lead in the same term, at any two moments, are the same node. |
| ElectionVotes.OneLeaderPerTerm | source/cluster_manager/clusterManager.js:1239-1330 | The same, over more runs: in every run in which no candidate acts on a heartbeat that is both older than its term and not later than the last vote it granted, two nodes that lead in one term, at any two moments, are the same node. |
| ElectionVotes.StepKeepsVotes | source/cluster_manager/clusterManager.js:1605-1614 | Every such step keeps the bookkeeping of votes: no voter grants one term to two nodes, counted votes were granted, and every leader was granted its term by a majority. |
| ElectionVotes.NodeVotes | source/cluster_manager/clusterManager.js:1750-1840 | A handler keeps the node's vote, forgets it only by moving to a later term, or gives one in a later term than any before; what it grants is the vote it has recorded. |
| ElectionSafety.FreshRunWonOnce | source/cluster_manager/clusterManager.js:1859-1877 | In such runs no term is won by two steps: the majorities of two winners would share a voter, and a voter grants a term once. |
| ElectionSafety.WinnerBackedByMajority | source/cluster_manager/clusterManager.js:1859-1876 | A step that makes a leader finds grants for its term from more than totalNode/2 distinct nodes, each with a commit id at most the winner's; no grant for that term from any voter carries a larger one. |
| ElectionRestriction.WinnerIsNotBehind | source/cluster_manager/clusterManager.js:1291-1323 | The election restriction over runs: each of the majority that elected a winner gave it its vote at a step of the run at which it had no log, or its term tag was not later than the winner's or had the same index, and under a tag not later it held no more updates than the winner. |
| ElectionRestriction.GrantWasFair | source/cluster_manager/clusterManager.js:1272-1329 | In every run, every grant on the network comes from a step at which its sender gave that vote to that node for that term while holding no later log than the request described. |
| ElectionBehaviour.GrantsExactly | source/cluster_manager/clusterManager.js:1239-1330 | A vote is granted if and only if the request is of no older term, a follower knows no other leader, and the vote of that term is already the asker's, or is still free and the voter's log is not later by tag or by number of updates; otherwise the refusal, the silence, the term and the role that follow are exact, for followers and candidates. |
| ElectionBehaviour.LogChangesExactly | source/cluster_manager/clusterManager.js:1050-1164 | When exactly a follower appends, when exactly it installs a snapshot, what a leader's update does, and that no other step of any role changes a log or its tag. |
| ElectionBehaviour.FollowsExactly | source/cluster_manager/clusterManager.js:1178-1226 | When exactly a follower takes a node for its leader and adopts its term. |
| ElectionBehaviour.RoleChangesExactly | source/cluster_manager/clusterManager.js:1841-1912 | When exactly each role gives way to which other, with what term, and what is announced; votes are counted if and only if they are new grants of this candidacy. |
| ElectionBehaviour.LeaderSendsExactly | source/cluster_manager/clusterManager.js:1467-1494 | What a leader sends, and to whom it sends its log. |
| ElectionBehaviour.CatchesUp | source/cluster_manager/clusterManager.js:949-964 | A follower that hears its leader has the leader's log after one exchange of request and snapshot; the leader's next update then fits if and only if the leader had already tagged its log with its own term. |
| ElectionSafety.LogMatching | source/cluster_manager/clusterManager.js:1137-1164 | When no term is won twice, of two nodes whose last entry has the same term tag the one with the lower index has accepted a prefix of the other's updates; equal tags mean equal logs. |
| ElectionSafety.CommitIdNeverDecreases | source/cluster_manager/clusterManager.js:1074-1088 | In every run, with or without the heartbeat hypothesis, no node's commit id ever decreases. |
| ElectionSafety.TermFallsIffStaleHeartbeat | source/cluster_manager/clusterManager.js:1879-1912 | A step lowers some node's term if and only if a candidate acts on a heartbeat whose term is older than its own. |
| StaleHeartbeat.TwoLeadersInOneTerm | source/cluster_manager/clusterManager.js:1879-1912 | A run of three nodes, using a stale heartbeat, in which two different nodes lead in term 1. |
| ElectionPreservation.StepInv | source/cluster_manager/clusterManager.js:1605-1614 | Every step keeps the whole invariant: one vote per voter and term, counted votes backed by grants, reigns backed by majorities, logs tagged. |
| ElectionPreservation.WinnerIsNew | source/cluster_manager/clusterManager.js:1866-1876 | A candidate that reaches a majority wins a term that nobody has won before. |
| ElectionPreservation.LogStep | source/cluster_manager/clusterManager.js:1561-1571 | Every step that does not let a term be won twice keeps the meaning of tags: (term, index) names exactly the first index+1 updates of that term's leader. |
| ElectionPreservation.AppendedTagged | source/cluster_manager/clusterManager.js:1140-1149 | A follower whose tag matches the entry before an appended update ends up holding what the leader held. |
| ElectionInvariant.QuorumsMeet | source/cluster_manager/clusterManager.js:1867 | Two sets of more than half of at most totalNode nodes have a node in common. |
| ElectionInvariant.LocalStep | source/cluster_manager/clusterManager.js:1841-1913 | A handler never lowers the term of a node that hears no stale heartbeat, raises it on becoming a candidate, and counts only fresh grants, each voter once. |
| ElectionInvariant.LocalVotes | source/cluster_manager/clusterManager.js:1266-1329 | A node gives up its vote of the current term only by starting an election in a later one; every grant it sends is for the vote it has recorded, in its current term, with its current commit id. |
| ElectionInvariant.LocalLog | source/cluster_manager/clusterManager.js:1085-1106 | A log changes only by appending after a matching tag, by installing a snapshot, or by a leader publishing; each time it is retagged with the current term. |
| ElectionInvariant.WinningStep | source/cluster_manager/clusterManager.js:1859-1878 | A node becomes leader only by receiving the grant that carries it past half of the nodes, in its own term. |
| ElectionManager.Manager.FollowerOnMessage | source/cluster_manager/clusterManager.js:1037-1346 | The follower's handler, in place, does to the node and sends what the follower's specification function says: snapshots, appends, heartbeats and votes with all their refusals. |
| ElectionManager.Manager.CandidateOnMessage | source/cluster_manager/clusterManager.js:1736-1919 | The candidate's handler, in place, against its specification function; a newer vote request first demotes the candidate and is then still decided. |
| ElectionManager.Manager.LeaderOnMessage | source/cluster_manager/clusterManager.js:1456-1518 | The leader's handler, in place: answers snapshot requests addressed to it and yields to a leader of a later term. |
| ElectionManager.Manager.Decide | source/cluster_manager/clusterManager.js:1291-1329 | The last part of both vote handlers: refuse exactly a node behind this node's log, otherwise record the vote and grant it. |
| ElectionManager.Manager.IsAhead | source/cluster_manager/clusterManager.js:1291-1312 | Whether this node's log is later than the asker's: by term tag, at different indices, or by number of updates under a tag that is not later; if neither, the log is not later. |
| ElectionManager.Manager.RegisterDataUpdate | source/cluster_manager/clusterManager.js:1561-1571 | Publishing an update: the entry carries the tag of the entry before it, and the log is then tagged with the new index and the current term. |
| ElectionManager.Manager.StartCandidacy | source/cluster_manager/clusterManager.js:1605-1626 | A candidacy takes the next term, forgets vote and voters, and asks everyone. |
| ElectionManager.Manager.OnTopicMessage | source/cluster_manager/clusterManager.js:1934-1936 | A message is handled by the handler of the current role only. |
| ElectionManager.Manager.OnTimeout | source/cluster_manager/clusterManager.js:903-926 | Losing the leader or the election starts a candidacy; a leader that no longer hears itself becomes a follower in the same term. |
| ElectionManager.Manager.BecomeFollower | source/cluster_manager/clusterManager.js:1704-1729 | Falling back to follower forgets the leader, takes the given term and keeps vote and log. |
| ElectionManager.Manager.constructor | source/cluster_manager/clusterManager.js:875-889 | A node starts as a follower with no term, vote, leader or log. |
| SnapshotLock.LockDiscipline | source/cluster_manager/clusterManager.js:949-974 | At every moment of every run the snapshot mutex is locked if and only if exactly one of "a granted waiter has not run" and "an installation is under way" holds; it is never released while free, the final unlock of installSnapshot is never reached, requests go out in the order of the calls, and an installation always has a timer that will end it. |
| SnapshotLock.KeepsDiscipline | source/cluster_manager/clusterManager.js:965-970 | Each event keeps the discipline, including a 500 ms timer left over from an installation that has ended. |
| SnapshotLock.PublishedInOrder | source/cluster_manager/clusterManager.js:949-964 | The requests published so far are a prefix of the calls made so far. |
| SnapshotLock.InstallationEnds | source/cluster_manager/clusterManager.js:965-970 | The snapshot or the timer, whichever comes first, ends an installation and lets the call that has waited longest in, or frees the lock; a timer left over changes nothing. |
| SnapshotLock.WaitersAreServed | source/cluster_manager/clusterManager.js:834-838 | While calls wait there is always a continuation to run or a timer that will fire, and those publish the next call. |
| SnapshotLock.FreeMeansServed | source/cluster_manager/clusterManager.js:787-793 | A request made while the lock is free is published by its own continuation. |
| SnapshotLock.Mutex.Acquire | source/cluster_manager/clusterManager.js:787-832 | A free mutex is taken at once, otherwise the caller joins the end of the queue. |
| SnapshotLock.Mutex.Release | source/cluster_manager/clusterManager.js:834-870 | Releasing hands the mutex to the first waiter, still locked, or frees it when nobody waits. |
| SnapshotLock.Installer.InstallSnapshot | source/cluster_manager/clusterManager.js:949-950 | A call asks for the lock and waits its turn. |
| SnapshotLock.Installer.OnGranted | source/cluster_manager/clusterManager.js:951-973 | The continuation after the lock, in place, against the transition function. |
| SnapshotLock.Installer.OnTimer | source/cluster_manager/clusterManager.js:965-970 | The timer callback, in place, against the transition function. |
| SnapshotLock.Installer.OnSnapshot | source/cluster_manager/clusterManager.js:1107-1110 | The end of an installation, in place, against the transition function. |
| SchedulerResults.ReservationInvariant | source/cluster_manager/scheduler.js:37-100 | In every state reachable by operations that add absent workers: each record is held by a live timer or by its own worker running the task, every armed timer is the timer of the one record it will repeal, and no worker lists a task twice. |
| SchedulerResults.ExclusiveUntilReclaimed | source/cluster_manager/scheduler.js:159-215 | One operation: records stay held by exactly one of timer and worker if and only if it is not a fresh schedule whose pick already lists the task. |
| SchedulerResults.FreshScheduleIsExclusive | source/cluster_manager/scheduler.js:179-208 | Before a fresh schedule: every possible answer keeps each record held by exactly one of timer and worker if and only if no available worker (nor the one that an undefined answer names) still lists the task. |
| SchedulerResults.AlwaysExclusive | source/cluster_manager/scheduler.js:37-215 | Over a whole run from an empty scheduler: every record is held by exactly one of timer and worker at every moment if and only if no operation of the run is such a schedule. |
| SchedulerResults.CarefulRunIsExclusive | source/cluster_manager/scheduler.js:37-215 | If every fresh schedule so far was made while no worker the task could be given to still listed it, every record is held by exactly one of timer and worker. |
| SchedulerResults.ReclaimHappens | source/cluster_manager/scheduler.js:198-215 | A run (add, load report, pick up, unschedule, schedule) that ends with a record held by both; before its last request the worker is available and, under every strategy, a right answer. |
| SchedulerResults.BindingIsSticky | source/cluster_manager/scheduler.js:159-177 | A task bound to a registered worker stays bound to it through an operation if and only if that is not expiry, its unscheduling, the worker's removal, another worker's pick-up or lay-down, or a lay-down while not running; the reservation time never decreases meanwhile, changes only to the time a request for the task asks for, and covers it. |
| SchedulerResults.StaysWithItsWorker | source/cluster_manager/scheduler.js:159-177 | Over a whole run without such operations a bound task stays with one worker and its reservation time never decreases. |
| SchedulerResults.LongEnough | source/cluster_manager/scheduler.js:160-173 | Whatever time a request asked for while the task was bound, the reservation is for at least that long for as long as the binding lasts. |
| SchedulerResults.AvailableAfterReport | source/cluster_manager/scheduler.js:111-143 | In every run a worker that is available has reported its load since it was added: being added does not make it available. |
| SchedulerResults.OneOpWorker | source/cluster_manager/scheduler.js:111-143 | Only its own reports change a worker's load and state; it starts at its limit (1 if none is given) with no state. |
| SchedulerResults.AvailableExactly | source/cluster_manager/scheduler.js:13-18 | A worker is available if and only if it has a limit above its load, and no state or state 2. |
| SchedulerResults.UnscheduleIs | source/cluster_manager/scheduler.js:211-215 | An unscheduling makes look-ups of exactly that task find nobody, and only if they found that worker. |
| SchedulerRuns.DoInv | source/cluster_manager/scheduler.js:111-215 | Every legal operation keeps the reservation invariant. |
| SchedulerRuns.ExecuteInv | source/cluster_manager/scheduler.js:58-80 | When a worker reports a task, the record becomes its own, its timer is disarmed, and every other task keeps its record and timer, even when another worker held it; a new record gets the default time. |
| SchedulerRuns.CancelInv | source/cluster_manager/scheduler.js:82-100 | Laying a running task down re-arms a reservation for its recorded time; laying down a task that is not running deletes the record. |
| SchedulerRuns.FireInv | source/cluster_manager/scheduler.js:45-47 | A timer that fires deletes exactly the record of its own task. |
| SchedulerRuns.EvictIs | source/cluster_manager/scheduler.js:127-132 | Removing a worker deletes exactly the records of its listed tasks that name it. |
| SchedulerRuns.RenewInv | source/cluster_manager/scheduler.js:160-176 | Scheduling a bound task keeps its worker; its reservation is then for the old time or the asked one, at least for each of them, and its timer is re-armed only when it is not running. |
| SchedulerRuns.FreshInv | source/cluster_manager/scheduler.js:179-208 | A fresh choice leaves every other task alone and puts the task on record with the chosen worker, for the time asked if that is positive and the default otherwise. |
| Scheduler.Scheduler.ScheduleTask | source/cluster_manager/scheduler.js:159-209 | A bound task goes to its own worker whatever the loads and preferences, and the strategy remembers nothing of it; any other task goes to the strategy's own pick among the available matching workers, from what the strategy remembers, or is refused when there are none; the state changes accordingly and the answer is one the runs allow. The worker answered is the one on record, for at least the time asked, and for exactly that or the default when the request is fresh. |
| Scheduler.Scheduler.Settle | source/cluster_manager/scheduler.js:174-208 | In place: an unusable record goes and the choice is put on record with a live timer, for the time asked or the default. |
| Scheduler.Scheduler.RenewTask | source/cluster_manager/scheduler.js:160-173 | In place: a bound task keeps its worker, for the time asked if that is longer; a running one gets no timer. |
| Scheduler.NeverFails | source/cluster_manager/scheduler.js:13-18 | With loads that are not negative and limits of at most 1, a request that finds an available matching worker is never left without a worker. |
| Scheduler.Scheduler.Choose | source/cluster_manager/scheduler.js:179-208 | The strategy is asked if and only if some available worker matches, its pick and its memory follow from its memory before, and the refusals say which of "none available" and "none matches" it was. |
| Scheduler.Scheduler.AvailableWorkers | source/cluster_manager/scheduler.js:179-184 | The candidates are exactly the available workers in table order. |
| Scheduler.CandidatesInOrder | source/cluster_manager/scheduler.js:179-184 | The available workers are offered in the order of the table. |
| Scheduler.Scheduler.ReserveWorkerForTask | source/cluster_manager/scheduler.js:37-49 | Replaces the record and its timer, disarming the old one. |
| Scheduler.Scheduler.RepealTask | source/cluster_manager/scheduler.js:51-56 | Deletes a record and disarms its timer. |
| Scheduler.Scheduler.ExecuteTask | source/cluster_manager/scheduler.js:58-80 | In place, against the specification function of a pick-up of one task. |
| Scheduler.Scheduler.CancelExecution | source/cluster_manager/scheduler.js:82-100 | In place, against the specification function of a lay-down. |
| Scheduler.Scheduler.RemoveWorker | source/cluster_manager/scheduler.js:124-135 | In place: evicts the worker's records and then the worker. |
| Scheduler.Scheduler.AddWorker | source/cluster_manager/scheduler.js:111-122 | In place: a worker starts with no state, no tasks, and its limit as load. |
| Scheduler.Scheduler.PickUpTasks | source/cluster_manager/scheduler.js:145-151 | The tasks reported by a registered worker are executed one by one; an unknown worker is ignored. |
| SchedulerResults.ScheduleThenLookUp | source/cluster_manager/scheduler.js:221-223 | Looking a task up after a schedule finds the worker that the schedule answered with, and nobody when an unbound task was refused; the worker found holds a live reservation or runs the task, and no other task's look-up changes. |
| Scheduler.Scheduler.UpdateState | source/cluster_manager/scheduler.js:137-139 | Only a registered worker's state changes. |
| Scheduler.Scheduler.UpdateLoad | source/cluster_manager/scheduler.js:141-143 | Only a registered worker's load changes. |
| Scheduler.Scheduler.LayDownTask | source/cluster_manager/scheduler.js:153-157 | A lay-down by an unknown worker is ignored. |
| Scheduler.Scheduler.UnscheduleTask | source/cluster_manager/scheduler.js:211-215 | Deletes the record only when it names the given worker. |
| Scheduler.Scheduler.OnTimer | source/cluster_manager/scheduler.js:45-47 | The timer callback repeals the task it was armed for. |
| Matcher.MatchByRegion | source/cluster_manager/matcher.js:20-44 | The one pass with found_sweet returns what two passes would: all applicable candidates in the preferred region in order, or all applicable ones if there is none. |
| Matcher.FormatContain | source/cluster_manager/matcher.js:52-59 | Counting hits decides whether every wanted format is in the list. |
| Matcher.CapableOf | source/cluster_manager/matcher.js:63-78 | Exactly the candidates that can encode and decode everything wanted, in order. |
| Matcher.Match | source/cluster_manager/matcher.js:20-149 | Each purpose's matcher, loop by loop, against its two-pass specification. |
| Matcher.MatchIsSound | source/cluster_manager/matcher.js:20-99 | Matches are candidates that fit, and if any fitting candidate is in the preferred region then all matches are. |
| Matcher.MatchIsExact | source/cluster_manager/matcher.js:11-117 | The matches are exactly the fitting candidates in the preferred region, or all fitting ones when the region has none; exactly those that know the algorithm; everyone when nothing is asked for; always in the candidates' order. A worker that lists no isp fits every isp. |
| Matcher.MatchDistinct | source/cluster_manager/matcher.js:20-149 | Matching never repeats a candidate. |
| Strategy.LeastUsedOf | source/cluster_manager/strategy.js:11-24 | The first candidate of least load, if that load is below 1. |
| Strategy.MostUsedOf | source/cluster_manager/strategy.js:26-39 | The last candidate of greatest load, if that load is not negative. |
| Strategy.RoundRobinVisitsAll | source/cluster_manager/strategy.js:52-64 | As many consecutive round-robin picks as there are candidates visit each exactly once, from any starting point. |
| Strategy.NextIsNext | source/cluster_manager/strategy.js:55-61 | The turn goes to the next candidate in the list, and from the last to the first. |
| Strategy.TurnsInOrder | source/cluster_manager/strategy.js:52-64 | From a worker that is not a candidate the turns go through the candidates as listed. |
| Strategy.LastUsedStays | source/cluster_manager/strategy.js:41-50 | Through any lists of candidates that all name a worker, last-used stays with it. |
| Strategy.Strategy.AllocateLast | source/cluster_manager/strategy.js:41-50 | Keeps to the last worker as long as it is a candidate. |
| Strategy.Strategy.AllocateNext | source/cluster_manager/strategy.js:52-64 | Steps to the next candidate, wrapping round. |
| Strategy.Strategy.Allocate | source/cluster_manager/strategy.js:11-126 | Every strategy answers with its own pick among the candidates and remembers exactly that; it has no answer only when least-used finds nobody below 1 or most-used nobody at or above 0. |
| Fairness.FairCycle | source/cluster_manager/strategy.js:72-106 | From nothing owed and with unchanged candidates and non-negative weights of sum W > 0, W calls pick every worker exactly its weight times and leave every cur_weight at zero. |
| Fairness.FairPrefix | source/cluster_manager/strategy.js:72-106 | After any k such calls a worker with weight w has been picked n times with n * W < k * w + W. |
| Fairness.ExactlyFair | source/cluster_manager/strategy.js:91-104 | The same over rounds of the weighted picking alone: W rounds give each server exactly its weight in turns and return to rest. |
| Fairness.PrefixBound | source/cluster_manager/strategy.js:91-104 | After k rounds nobody has had more than its share plus one turn. |
| Fairness.AllocationConserves | source/cluster_manager/strategy.js:75-103 | Whatever the loads and newcomers, an allocation changes the sum of cur_weights exactly by what the dropped workers take with them; so it stays zero while nobody drops out. |
| Fairness.CreditIsConserved | source/cluster_manager/strategy.js:75-103 | Over a history of requests with any candidates and loads, the cur_weights sum to what they did at first less what the dropped workers took with them. |
| Fairness.CreditStaysZero | source/cluster_manager/strategy.js:75-104 | Over a history in which no candidate drops out, the cur_weights of a new allocator sum to zero after every request, whatever the loads and whoever joins. |
| Fairness.AdvanceConserves | source/cluster_manager/strategy.js:91-103 | A round neither creates nor destroys credit, for any weights. |
| Fairness.AdvanceFair | source/cluster_manager/strategy.js:94-103 | With non-negative weights the largest cur_weight is positive when it is charged, so every cur_weight stays above -total. |
| Fairness.Ledger | source/cluster_manager/strategy.js:94-103 | After k rounds a server's cur_weight is its start plus k times its weight, less the total for each turn it has had. |
| Fairness.CallsArePlay | source/cluster_manager/strategy.js:74-105 | A history of calls to the allocator with an unchanged offer is the same as playing rounds. |
| WeightRobin.Allocator.Allocate | source/cluster_manager/strategy.js:74-105 | One allocation in place: the list becomes the refreshed list advanced by one round, and the answer is that round's winner, a candidate. |
| WeightRobin.Allocator.Enrol | source/cluster_manager/strategy.js:75-83 | Known candidates get this round's weight in place; new ones join the end with nothing owed. |
| WeightRobin.Allocator.Drop | source/cluster_manager/strategy.js:85-89 | The backward pass keeps exactly the candidates, in order. |
| WeightRobin.Allocator.Raise | source/cluster_manager/strategy.js:91-101 | One pass adds every weight and finds the total and the first server of largest cur_weight. |
| WeightRobin.Allocator.Pick | source/cluster_manager/strategy.js:103-104 | Only the winner is charged, with the total weight. |
| WeightRobin.FirstMaxIs | source/cluster_manager/strategy.js:98-100 | The winner has the largest cur_weight and is the first that has it. |
| WeightRobin.RefreshIsFiltered | source/cluster_manager/strategy.js:75-89 | Enrolling and then dropping gives the candidates only: old ones in their order with their credit, then new ones. |
| WeightRobin.RefreshOrder | source/cluster_manager/strategy.js:75-89 | The servers of a round: those from before in their order, then the new ones in the order in which they are listed. |
| WorkerAgreement.WorkerAndManagerAgree | source/common/clusterWorker.js:212-305 | In every run: at every moment at which the worker is registered and known to the manager, the manager's list with the in-flight reports applied is the worker's own task set, through losses, removals, restarts and rejoins in either manager state, if and only if no first join of the run succeeds while the worker holds tasks at a manager that knows it. |
| WorkerAgreement.AgreeAfterJoining | source/common/clusterWorker.js:375-393 | They agree in particular in every run in which no task is added before the first join. |
| WorkerAgreement.TasksChangeExactly | source/common/clusterWorker.js:280-285 | A worker gains a task exactly by being given it and loses it exactly by its removal or by a rejoin answered by a manager in service; a rejoin at an initializing manager loses nothing. |
| WorkerAgreement.ReportsExactly | source/common/clusterWorker.js:342-393 | What each step sends: a registered worker reports each change, a rejoin at an initializing manager reports exactly its tasks, any other answer to a join reports none. |
| WorkerAgreement.TaskStays | source/common/clusterWorker.js:270-305 | Over a run, a task stays with its worker through losses and rejoins until it is removed or a rejoin is answered by a manager in service, and the manager that knows the registered worker lists it or is being told of it. |
| WorkerAgreement.StepKeepsAgreement | source/common/clusterWorker.js:267-305 | From any agreeing state a step keeps agreement if and only if it is not a first successful join that finds the worker holding tasks at a manager that knows it. |
| WorkerAgreement.UnreportedTask | source/common/clusterWorker.js:375-383 | A run in which a task added before the first join is never reported. |
| WorkerAgreement.ManagerReceivesInv | source/cluster_manager/clusterManager.js:213-230 | A join registers the worker afresh, and a report updates its list; either way what is still in flight keeps its meaning. |
| WorkerAgreement.OthersKeepList | source/cluster_manager/scheduler.js:111-215 | What the scheduler does for others leaves a worker's list of running tasks alone, or removes the worker. |
| WorkerAgreement.InFlightAppend | source/common/clusterWorker.js:342-348 | Reports arrive in order: one more at the end of the channel takes effect after all others. |
| ClusterWorker.ClusterWorker.DoAddTask | source/common/clusterWorker.js:375-383 | A new task joins the list and is reported if the worker is registered; a known one changes nothing. |
| ClusterWorker.ClusterWorker.DoRemoveTask | source/common/clusterWorker.js:385-393 | A known task leaves the list and is laid down if the worker is registered. |
| ClusterWorker.ClusterWorker.TryRecovery | source/common/clusterWorker.js:270-273 | Losing the manager makes the worker recover unless it already does. |
| ClusterWorker.ClusterWorker.TryJoining | source/common/clusterWorker.js:275-281 | Each attempt sends one join request of its own. |
| ClusterWorker.ClusterWorker.OnJoined | source/common/clusterWorker.js:218-223 | A successful rejoin keeps and reports all tasks at an initializing manager, and drops them all at one in service; a first join reports nothing. |
| VMixer.VMixer.AddInput | source/agent/video/vmixer.js:249-306 | The stream takes the top free slot, at the end of the layout, or joins the queue; slots and queue stay valid, and the layout still agrees with the slots if and only if the engine took the input or was not asked. |
| VMixer.VMixer.RemoveInput | source/agent/video/vmixer.js:275-306 | The stream and no other is gone; the first in the queue takes its slot and its place in the layout; the layout still agrees if and only if nobody was promoted or the engine accepts the promoted stream. |
| VMixer.VMixer.SetPrimary | source/agent/video/vmixer.js:766-789 | No stream is lost; a waiting stream trades places with the first active one that was least often primary; the call is refused exactly when the stream is unknown or the engine refuses the switch, otherwise it stands in region 0 and counts once more as primary. |
| VMixer.VMixer.SetRegion | source/agent/video/vmixer.js:791-823 | No stream is lost, and on success the stream stands in the region. A waiting stream succeeds if and only if the region is occupied and the engine accepts; an active one if and only if the region is occupied or it stands at that place already; the call trips if and only if a waiting stream asks for an unknown region while there are more inputs than regions. The stream that stood in the region is the one that gives way to a waiting stream, at the end of the queue, and no other moves. |
| VMixer.VMixer.MoveTo | source/agent/video/vmixer.js:813-819 | An active stream is swapped into the region, or nothing moves. |
| VMixer.VMixer.Occupy | source/agent/video/vmixer.js:794-812 | A waiting stream takes the slot, and so the place, of the stream in the region, which then waits; the layout stays as it is, or loses that slot when the engine refuses. |
| VMixer.VMixer.Deinit | source/agent/video/vmixer.js:496-514 | Removing the queue first and then everything leaves nothing, every slot free and nothing shown, without asking the engine. |
| VMixer.VMixer.RemoveWaiting | source/agent/video/vmixer.js:506-511 | The first pass of tearing down empties the queue. |
| VMixer.VMixer.constructor | source/agent/video/vmixer.js:445-447 | A new mixer has no streams and an empty layout that agrees. |
| VMixer.HidesActive | source/agent/video/vmixer.js:289-300 | Hiding a slot that stays active loses the agreement: this is why a refusal does. |
| VMixer.HidesFreed | source/agent/video/vmixer.js:301-303 | Hiding a slot that was given back keeps it. |
| InputManager.InputManager.Add | source/agent/video/vmixer.js:82-101 | Takes the slot on top of the stack or queues the stream. Active slots and free slots stay a partition of 0..maxInput-1 and no stream is in both tables, if and only if the stream was not waiting while a slot was free; and nobody waits while a slot is free if nobody did before. |
| InputManager.InputManager.Remove | source/agent/video/vmixer.js:104-115 | Gives the slot back or leaves the queue. |
| InputManager.InputManager.PromotePendingStream | source/agent/video/vmixer.js:149-165 | The first in the queue takes exactly the given slot, if that is free. |
| InputManager.InputManager.Enable | source/agent/video/vmixer.js:119-146 | Trades places between a waiting stream and the named or least often primary active one; the set of streams and the slots in use stay the same. Naming a stream that is not active trips, and leaves the waiting stream among the active ones without a slot. |
| InputManager.InputManager.LeastPrimary | source/agent/video/vmixer.js:126-132 | The first active stream of least primary count. |
| InputManager.InputManager.GetStreamFromInput | source/agent/video/vmixer.js:176-183 | Finds the one stream that holds a slot, and nobody exactly for a slot that is not active. |
| InputManager.InputManager.CountPrimary | source/agent/video/vmixer.js:783 | Counts one stream once more as primary and moves no slot. |
| InputManager.PartitionDistinct | source/agent/video/vmixer.js:36-51 | In a partition no slot is held twice or both held and free, all are below maxInput, and none is missing. |
| InputManager.InputManager.constructor | source/agent/video/vmixer.js:37-51 | All slots below maxInput (100 if none is given) are free, slot 0 on top of the stack. |
| InputManager.SwapKeeps | source/agent/video/vmixer.js:134-143 | Trading places keeps the partition, the disjointness of active and waiting streams, and the set of streams. |
| InputManager.SwapTakesOver | source/agent/video/vmixer.js:138-143 | The stream that comes in holds the slot of the one that goes out. |
| InputManager.SwapOrder | source/agent/video/vmixer.js:134-143 | Trading places, each stream keeps its media and count, the one that goes out joins the end of the queue, and everyone else keeps their place. |
| InputManager.QueueOrder | source/agent/video/vmixer.js:93-95 | A newcomer waits behind everyone; a stream that waits already keeps its place with what it brings now. |
| InputManager.CountedIs | source/agent/video/vmixer.js:783 | One stream counts once more as primary and nothing else changes. |
| Layout.LayoutProcessor.constructor | source/agent/video/layout.js:68-98 | Templates are filed by their number of regions, the last of equal size winning. |
| Layout.LayoutProcessor.AddInput | source/agent/video/layout.js:106-120 | The input joins once, at the chosen end; the current template is the smallest that covers min(inputs, maxCover), and each region shows the input of its rank. |
| Layout.LayoutProcessor.RemoveInput | source/agent/video/layout.js:127-134 | The input goes, the others keep their order, and the template is again the smallest cover. |
| Layout.LayoutProcessor.SpecifyInputRegion | source/agent/video/layout.js:142-169 | Succeeds exactly when the input is known and stands there already (an unknown region counts as the place after the last) or the region exists and is occupied; then the two inputs are swapped and no other moves. |
| Layout.LayoutProcessor.SetPrimary | source/agent/video/layout.js:175-190 | The input is swapped into region 0. |
| Layout.LayoutProcessor.ChoseTemplate | source/agent/video/layout.js:227-235 | The upward search finds the smallest template with room, and keeps the current one when none has. |
| Layout.LayoutProcessor.UpdateInputPositions | source/agent/video/layout.js:242-258 | Region k shows the k-th input, and later regions stay empty. |
| Layout.LayoutProcessor.GetInput | source/agent/video/layout.js:209-220 | The input in a region; reads past the regions exactly when the region is unknown and there are more inputs than regions. |
| Layout.LayoutProcessor.FindRegion | source/agent/video/layout.js:147-149 | The first region with the id, or the number of regions. |
| NodePool.NodePool.constructor | source/agent/nodeManager.js:35-42 | A new pool starts min(prerunNodeNum, maxNodeNum) nodes, numbered from 0, all idle and empty. |
| NodePool.NodePool.FillNodes | source/agent/nodeManager.js:174-185 | Afterwards as many nodes are idle as wanted or the pool is as large as it may be; nodes are started only up to the number wanted, fresh ones, at the end of the idle list. |
| NodePool.NodePool.FindNodeUsedByRoom | source/agent/nodeManager.js:248-259 | Finds a listed node that holds the room if there is one. |
| NodePool.NodePool.DropNode | source/agent/nodeManager.js:166-172 | Forgets a process if it is live, and does nothing otherwise. |
| NodePool.NodePool.CleanupNode | source/agent/nodeManager.js:49-66 | Forgets a live process everywhere and nothing else. |
| NodePool.NodePool.LaunchNode | source/agent/nodeManager.js:161-163 | A fresh id joins the processes, the idle list and the task table. |
| NodePool.NodePool.GetNode | source/agent/nodeManager.js:285-305 | With room affinity a room that has a node gets that node again; otherwise the node longest idle is taken. The node is live, holds the room, and under affinity is the only one that does; without reuse it was unused. |
| NodePool.NodePool.PickInIdle | source/agent/nodeManager.js:261-270 | The node longest idle moves to the end of the nodes in use and gets the room, keeping what it held. |
| NodePool.NodePool.AfterPick | source/agent/nodeManager.js:271-280 | Afterwards the pool is valid if and only if the turn of a full pool finds a node in use; a pool that is not full has its idle nodes topped up to the number wanted or to its maximum. |
| NodePool.StaleRotation | source/agent/nodeManager.js:271-280 | A pool of one node in which the turn puts an undefined node on the idle list. |
| NodePool.RotationKeeps | source/agent/nodeManager.js:277-279 | Moving the longest used node to the idle list keeps the lists disjoint and complete exactly when there is one. |
| NodePool.CleanupKeeps | source/agent/nodeManager.js:49-66 | Forgetting a process takes it from both lists and keeps them disjoint, repeat-free and equal to the live processes. |
| NodePool.NodePool.Closed | source/agent/nodeManager.js:88-109 | A closed process is forgotten once, and the pool is topped up unless spawning has failed. |
| NodePool.NodePool.Failed | source/agent/nodeManager.js:144-158 | A process that cannot start is forgotten; a second report about it trips. |
| NodePool.NodePool.Recover | source/agent/nodeManager.js:347-350 | Spawning is tried again and the pool is topped up. |
| NodePool.NodePool.Settle | source/agent/nodeManager.js:306-319 | The task is put on the node if it is ready and still has the room, and reported if it is the first of its name there; otherwise the node's whole record is dropped. |
| NodePool.NodePool.RecycleNode | source/agent/nodeManager.js:195-215 | Ending a use of a task removes one occurrence, the room with its last task, and the node with its last room. |
| NodePool.AddThenTake | source/agent/nodeManager.js:187-215 | Adding a task and taking it away restores the room's tasks, and the removal is reported exactly when the addition was. |
| NodePool.RoomJoins | source/agent/nodeManager.js:261-270 | A room that no node holds can join a node without being on two. |
| NodePool.WithRoomIs | source/agent/nodeManager.js:267-269 | A room that joins a node is empty unless it was there, and no other room on the node changes. |
| NodePool.NodePool.DropAllNodes | source/agent/nodeManager.js:352-360 | Leaves no process, no node and no task. |
| Connections.LinkupKeeps | source/agent/connections.js:116-142 | A request for audio and video links keeps both places in step if and only if each link it makes goes from an incoming to an outgoing connection that had no source for that track; a refusal half way keeps the first link. |
| Connections.LinkupMakes | source/agent/connections.js:116-142 | Exactly what a request links on each track, and when a track is refused: the destination names the new source in place of its old one, the source feeds it too, and nothing else changes. |
| Connections.LinkTrackKeeps | source/agent/connections.js:130-138 | The same for one track. |
| Connections.LinkedTwice | source/agent/connections.js:135-137 | A destination that already had a source is then fed twice, or by two sources of which it names one. |
| Connections.Connections.LinkupConnection | source/agent/connections.js:116-142 | The loop over the tracks, in place, leaves what the specification says, and succeeds exactly when both tracks can be linked. |
| Connections.Connections.CutoffConnection | source/agent/connections.js:144-157 | After a cutoff the remaining links are exactly those that do not touch the connection, in both places. |
| Connections.Connections.RemoveConnection | source/agent/connections.js:99-114 | After a removal no connection names the removed one and no native list holds it; all other links are kept. |
| Connections.Connections.CutOffFrom | source/agent/connections.js:27-54 | The loop over all connections, in place, against its specification. |
| Connections.Connections.CutOffTo | source/agent/connections.js:56-78 | Both tracks cut in place. It trips exactly when a linked track has no receiver, leaving the tracks before it cut, and never when the two places were in step. |
| Connections.Connections.AddConnection | source/agent/connections.js:80-97 | A new connection starts unlinked; an existing one is refused and kept. |
| Connections.CutFromKeeps | source/agent/connections.js:27-54 | Cutting an incoming connection off removes every link from it and no other. |
| Connections.CutToKeeps | source/agent/connections.js:56-78 | Cutting an outgoing connection off removes its own links and no other. |
| Connections.UnlinkedGoes | source/agent/connections.js:107 | A connection without links can be deleted without leaving a dangling source. |
| SelectiveMixer.SelectiveMixer.OnRankChange | source/agent/audio/selectiveMixer.js:37-74 | For any permutation of ranks: from agreement, the native inputs are afterwards exactly the known streams in the new ranking, each fed from its own rank, if and only if no known stream is ranked twice. |
| SelectiveMixer.SelectiveMixer.AddInput | source/agent/audio/selectiveMixer.js:76-86 | Adding a stream keeps agreement if and only if it was known, or has a name and was not ranked before it was known. |
| SelectiveMixer.SelectiveMixer.RemoveInput | source/agent/audio/selectiveMixer.js:88-100 | Removing a ranked stream keeps agreement if and only if the caller names its owner. |
| SelectiveMixer.SelectiveMixer.constructor | source/agent/audio/selectiveMixer.js:20-35 | k ranks (3 if none are asked for), all nobody's, agreeing with an empty mixer. |
| SelectiveMixer.LetOneGo | source/agent/audio/selectiveMixer.js:47-60 | The first phase: the inputs of the changed ranks go, and no others. |
| SelectiveMixer.TakeOneUp | source/agent/audio/selectiveMixer.js:61-71 | The second phase: each changed rank gets its new input, without disturbing another rank. |
| SelectiveMixer.InTuneRanksOnce | source/agent/audio/selectiveMixer.js:61-71 | Agreement implies that no known stream is ranked twice. |
| Bitrate.StandardBitrate | source/common/mediaUtil.js:7-38 | The table search equals the closed formula of the curve, segment by segment. |
| Bitrate.OneSegment | source/common/mediaUtil.js:14-32 | A rate lies in exactly one segment of the table, or in none when it is not positive or above all of them. |
| Bitrate.CurveClimbs | source/common/mediaUtil.js:24-32 | Between positive rates the curve never falls and never jumps: its slope is at most 1/192, and at least 1/576 up to its end. |
| Bitrate.CurveInterpolates | source/common/mediaUtil.js:27-30 | On each segment the formula is the line between the two table points. |
| Bitrate.CurveRange | source/common/mediaUtil.js:33-37 | Every rate gets a bitrate in (0, 64000], and 64000 exactly from the last table point on or when it is not positive. |
| Bitrate.MonotoneExactly | source/common/mediaUtil.js:7-38 | A larger rate gets at least the bitrate of a smaller one if and only if the smaller is positive, or the larger is not, or the larger is beyond the table. |
| Bitrate.DefaultIsMonotone | source/common/mediaUtil.js:40-49 | For every codec the default never falls when width, height or framerate grow. |
| Bitrate.EmptyPicture | source/common/mediaUtil.js:33-36 | A picture of no width gets the largest default there is. |
| Bitrate.CalcDefaultBitrate | source/common/mediaUtil.js:40-49 | The default is the curve scaled by the codec's factor and the motion factor; unknown codecs count as 1. |

## Left out

- Timing in the cluster manager: random election timeouts and heartbeat intervals are steps that may happen at any time; liveness of elections and of snapshot catch-up is not stated, and the code does not promise it.
- The filters that drop a message before the mutex is taken (`source/cluster_manager/clusterManager.js:1006-1035`, `1429-1454`): dropping a message is the same as losing it, which the network may do anyway.
- Handlers run under the cluster manager's mutex and are single steps here; the mutex itself is modelled in the snapshot lock.
- Crash and restart of a cluster manager node: votes are not persisted, so the model has no restart.
- The freshman flag and the manager's own maps: a log is the sequence of updates a node has accepted, not the tables it builds from them.
- ElectionSafety: assumes that candidates act only on heartbeats not older than their term, because without any such hypothesis the code does elect two leaders in one term (TwoLeadersInOneTerm); OneLeaderPerTerm assumes less.
- ReservationInvariant: states that a record is held by its timer or by its worker, not by exactly one of them, because the latter is false of the code (ReclaimHappens); AlwaysExclusive and FreshScheduleIsExclusive give the exact conditions.
- The replica side of the scheduler (`setScheduled`, `setData`, `serve`), which creates records without timers.
- The weight made of a load (`source/cluster_manager/strategy.js:82`) is a given integer, and a random pick is a given number: rounding and randomness are not modelled.
- Cluster worker: quitting, rejecting tasks, reports of load and state, retry counts and keep-alive counters; contact may be lost at any time.
- Fields of the scheduler's preference objects that the source would read from an undefined object.
- Video mixer: `setLayout`, `reset`, `getRegion`, outputs, drawing, inputs that wait for a link (`unlinkedInputs`), and calls while there is no engine. Stream ids are assumed to be enumerated in insertion order, which JavaScript does for all but integer-like keys, and not to be empty.
- Enable: when it trips, the key it leaves behind with an undefined value is modelled as absent.
- Settle: the source's rejection handler trips over the record it has just dropped, which rejects the promise either way; the key it leaves behind with an undefined value is modelled as absent.
- Node manager: log files, spawning, the addresses of nodes, `queryNode`, and how a node gets ready.
- Connections: the data track, which is never cut off; fault detection; which receivers are native objects. A connection's receivers do not change once it is added. The native lists are modelled as lists from which a removal takes every occurrence.
- Selective mixer: outputs, voice activity, and failures of the native mixer.
- Bitrate: arithmetic is exact where the source rounds to doubles.
- Access control, conference and room control, signalling, internal transport and native media processing are not part of this project.
