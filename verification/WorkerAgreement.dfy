/** The worker's task list and the scheduler's list for that worker, with everything in flight between them. */
module WorkerAgreement {
  import opened Options
  import opened Sequences
  import opened SchedulerModel
  import SchedulerRuns
  import opened CW = ClusterWorker

  /** Messages to the manager arrive in the order sent; join calls travel with the rest. Answers come back by number. */
  datatype System = System(
    me: WorkerId,
    worker: CW.Member,
    channel: seq<Message>,
    replies: set<(nat, ManagerState)>,
    manager: ManagerState,
    sched: State)

  datatype Step =
    | WorkerAdds(task: Task)
    | WorkerRemoves(task: Task)
    | WorkerLosesContact
    | WorkerCallsJoin
    | JoinTimesOut
    | JoinReturns(result: ManagerState)
    | ManagerReceives
    | ManagerChanges(state: ManagerState)
    | ManagerRestarts(anew: State)
    | SchedulerActs(op: SchedulerRuns.Op)

  /** Scheduler operations that are not this worker's own reports: requests, timers, other workers, and removals. */
  predicate NotMine(me: WorkerId, op: SchedulerRuns.Op) {
    match op
    case DoAdd(w, _) => w != me
    case DoPickUp(w, _) => w != me
    case DoLayDown(w, _) => w != me
    case _ => true
  }

  predicate Enabled(s: System, step: Step) {
    match step
    case WorkerLosesContact => s.worker.state == Registered
    case WorkerCallsJoin => s.worker.state != Registered && !s.worker.waiting
    case JoinTimesOut => s.worker.waiting
    case JoinReturns(result) => s.worker.waiting && (s.worker.attempt, result) in s.replies
    case ManagerReceives => s.channel != []
    case ManagerRestarts(anew) => s.me !in anew.workers
    case SchedulerActs(op) => NotMine(s.me, op) && SchedulerRuns.Legal(s.sched, op)
    case _ => true
  }

  function Sends(s: System, o: CW.Outcome): System {
    s.(worker := o.worker, channel := s.channel + o.sent)
  }

  /** A join registers the worker afresh; reports from a worker the manager does not know are ignored. */
  function Received(s: State, me: WorkerId, info: Info, m: Message, time: int): State {
    match m
    case Join(_) => Add(s, me, info)
    case PickUp(ts) => if me in s.workers then ExecuteAll(s, me, ts, time) else s
    case LaidDown(t) => LayDown(s, me, t)
  }

  function Apply(s: System, step: Step, info: Info, time: int): System
    requires Enabled(s, step)
  {
    match step
    case WorkerAdds(t) => Sends(s, AddTask(s.worker, t))
    case WorkerRemoves(t) => Sends(s, RemoveTask(s.worker, t))
    case WorkerLosesContact => Sends(s, LoseContact(s.worker))
    case WorkerCallsJoin => Sends(s, CallJoin(s.worker))
    case JoinTimesOut => s.(worker := JoinFailed(s.worker))
    case JoinReturns(result) => Sends(s, JoinedWith(s.worker, result))
    case ManagerReceives =>
      var m := s.channel[0];
      s.(channel := s.channel[1..], sched := Received(s.sched, s.me, info, m, time),
         replies := if m.Join? then s.replies + {(m.attempt, s.manager)} else s.replies)
    case ManagerChanges(state) => s.(manager := state)
    case ManagerRestarts(anew) => s.(sched := anew)
    case SchedulerActs(op) => s.(sched := SchedulerRuns.Do(s.sched, op, time))
  }

  ghost predicate Init(s: System) {
    s.worker == NewWorker() && s.channel == [] && s.replies == {} && s.me !in s.sched.workers
  }

  // ----- what is in flight

  function Elements(ts: seq<Task>): set<Task> {
    set t | t in ts
  }

  function Effect(known: set<Task>, m: Message): set<Task> {
    match m
    case Join(_) => {}
    case PickUp(ts) => known + Elements(ts)
    case LaidDown(t) => known - {t}
  }

  function InFlight(known: set<Task>, channel: seq<Message>): set<Task>
    decreases |channel|
  {
    if channel == [] then known else InFlight(Effect(known, channel[0]), channel[1..])
  }

  lemma {:induction false} InFlightAppend(known: set<Task>, channel: seq<Message>, m: Message)
    ensures InFlight(known, channel + [m]) == Effect(InFlight(known, channel), m)
    decreases |channel|
  {
    if channel == [] {
      assert channel + [m] == [m];
    } else {
      assert (channel + [m])[0] == channel[0] && (channel + [m])[1..] == channel[1..] + [m];
      InFlightAppend(Effect(known, channel[0]), channel[1..], m);
    }
  }

  function ListOf(s: System): seq<Task>
    requires s.me in s.sched.workers
  {
    s.sched.workers[s.me].tasks
  }

  /** Once everything in flight has arrived, the manager's list for the worker is the worker's own task set. */
  ghost predicate Agree(s: System) {
    s.worker.state == Registered && s.me in s.sched.workers ==>
      InFlight(Elements(ListOf(s)), s.channel) == Elements(s.worker.tasks)
  }

  // ----- the invariant

  ghost predicate ChannelOk(s: System) {
    && (s.worker.state == Registered ==> !s.worker.waiting && forall m <- s.channel :: !m.Join?)
    && (forall m <- s.channel :: m.Join? ==> 1 <= m.attempt <= s.worker.attempt)
    && (forall r <- s.replies :: r.0 <= s.worker.attempt)
    && (forall p :: 0 <= p < |s.channel| && s.channel[p] == Join(s.worker.attempt) ==> p == |s.channel| - 1)
    && (s.worker.state == Unregistered ==> forall m <- s.channel :: m.Join?)
    && (s.worker.attempt == 0 ==> s.worker.state == Unregistered && s.replies == {})
  }

  /** Once the latest join has been received, nothing is in flight and the manager holds an empty list. */
  ghost predicate Clear(s: System) {
    s.worker.state != Registered && (exists r <- s.replies :: r.0 == s.worker.attempt) ==>
      s.channel == [] && (s.me in s.sched.workers ==> ListOf(s) == [])
  }

  ghost predicate Inv(s: System) {
    && Distinct(s.worker.tasks)
    && (s.me in s.sched.workers ==> Distinct(ListOf(s)))
    && ChannelOk(s)
    && Clear(s)
    && Agree(s)
  }

  /** The hypothesis: a worker whose first join succeeds at a manager that still knows it holds no task yet. */
  predicate Clean(s: System, step: Step) {
    step.JoinReturns? && s.worker.state == Unregistered ==> s.worker.tasks == [] || s.me !in s.sched.workers
  }

  // ----- the scheduler's list

  lemma ExecuteLists(s: State, w: WorkerId, t: Task, time: int)
    requires w in s.workers
    ensures var r := Execute(s, w, t, time);
            && r.workers.Keys == s.workers.Keys
            && (forall v <- s.workers | v != w :: r.workers[v] == s.workers[v])
            && (Distinct(s.workers[w].tasks) ==> Distinct(r.workers[w].tasks))
            && Elements(r.workers[w].tasks) == Elements(s.workers[w].tasks) + {t}
  {
    var r := Execute(s, w, t, time);
    assert r.workers == if Runs(s, w, t) then s.workers
                        else s.workers[w := s.workers[w].(tasks := s.workers[w].tasks + [t])];
  }

  lemma {:induction false} ExecuteAllLists(s: State, w: WorkerId, ts: seq<Task>, time: int)
    requires w in s.workers
    ensures var r := ExecuteAll(s, w, ts, time);
            && r.workers.Keys == s.workers.Keys
            && (forall v <- s.workers | v != w :: r.workers[v] == s.workers[v])
            && (Distinct(s.workers[w].tasks) ==> Distinct(r.workers[w].tasks))
            && Elements(r.workers[w].tasks) == Elements(s.workers[w].tasks) + Elements(ts)
  {
    if ts != [] {
      var init, last := ts[..|ts| - 1], ts[|ts| - 1];
      assert ts == init + [last];
      assert Elements(ts) == Elements(init) + {last};
      ExecuteAllLists(s, w, init, time);
      ExecuteLists(ExecuteAll(s, w, init, time), w, last, time);
    }
  }

  lemma CancelLists(s: State, w: WorkerId, t: Task)
    ensures var r := Cancel(s, w, t);
            && r.workers.Keys == s.workers.Keys
            && (forall v <- s.workers | v != w :: r.workers[v] == s.workers[v])
            && (w in s.workers && Distinct(s.workers[w].tasks) ==>
                  Distinct(r.workers[w].tasks) && Elements(r.workers[w].tasks) == Elements(s.workers[w].tasks) - {t})
  {
    if Runs(s, w, t) && Distinct(s.workers[w].tasks) {
      SchedulerRuns.WithoutFirstIs(s.workers[w].tasks, t);
    }
  }

  /** What the manager does for others leaves the worker's list alone, or removes the worker. */
  lemma OthersKeepList(s: State, me: WorkerId, op: SchedulerRuns.Op, time: int)
    requires NotMine(me, op) && SchedulerRuns.Legal(s, op)
    ensures var r := SchedulerRuns.Do(s, op, time);
            && (me in r.workers ==> me in s.workers && r.workers[me].tasks == s.workers[me].tasks)
  {
    match op {
      case DoRemove(w) => if w in s.workers { SchedulerRuns.EvictKeepsWorkers(s, w, s.workers[w].tasks); }
      case DoPickUp(w, ts) =>
        if w in s.workers { ExecuteAllLists(s, w, ts, time); } else { SchedulerRuns.NoneExecuted(s, w, ts, time); }
      case DoLayDown(w, t) => CancelLists(s, w, t);
      case _ =>
    }
  }

  lemma ReceivedList(s: State, me: WorkerId, info: Info, m: Message, time: int)
    requires me in s.workers ==> Distinct(s.workers[me].tasks)
    ensures var r := Received(s, me, info, m, time);
            && (me in r.workers <==> me in s.workers || m.Join?)
            && (me in r.workers ==> Distinct(r.workers[me].tasks))
            && (me in s.workers ==> Elements(r.workers[me].tasks) == Effect(Elements(s.workers[me].tasks), m))
            && (m.Join? ==> r.workers[me].tasks == [])
  {
    match m {
      case Join(_) =>
      case PickUp(ts) => if me in s.workers { ExecuteAllLists(s, me, ts, time); }
      case LaidDown(t) => CancelLists(s, me, t);
    }
  }

  // ----- each step

  lemma InitInv(s: System)
    requires Init(s)
    ensures Inv(s)
  {
  }

  /** While registered, a report of a change to the task list keeps the in-flight account in step. */
  lemma ReportAgrees(s: System, r: System, m: Message)
    requires Inv(s) && s.worker.state == Registered
    requires r == s.(worker := r.worker, channel := s.channel + [m]) && r.worker.state == Registered
    requires Elements(r.worker.tasks) == Effect(Elements(s.worker.tasks), m)
    ensures Agree(r)
  {
    if s.me in s.sched.workers {
      InFlightAppend(Elements(ListOf(s)), s.channel, m);
    }
  }

  lemma WorkerAddsInv(s: System, t: Task)
    requires Inv(s)
    ensures Inv(Sends(s, AddTask(s.worker, t)))
  {
    var r := Sends(s, AddTask(s.worker, t));
    if t in s.worker.tasks || s.worker.state != Registered {
      assert r.channel == s.channel;
    } else {
      assert Elements(r.worker.tasks) == Elements(s.worker.tasks) + Elements([t]);
      ReportAgrees(s, r, PickUp([t]));
    }
  }

  lemma WorkerRemovesInv(s: System, t: Task)
    requires Inv(s)
    ensures Inv(Sends(s, RemoveTask(s.worker, t)))
  {
    var r := Sends(s, RemoveTask(s.worker, t));
    if t in s.worker.tasks {
      SchedulerRuns.WithoutFirstIs(s.worker.tasks, t);
    }
    if t !in s.worker.tasks || s.worker.state != Registered {
      assert r.channel == s.channel;
    } else {
      ReportAgrees(s, r, LaidDown(t));
    }
  }

  lemma CallJoinInv(s: System, w: CW.Member)
    requires Inv(s) && w == s.worker.(state := w.state) && w.state != Registered
    requires w.state == Unregistered ==> s.worker.state == Unregistered
    ensures Inv(Sends(s, CallJoin(w)))
  {
  }

  lemma JoinReturnsInv(s: System, result: ManagerState)
    requires Inv(s) && s.worker.waiting && (s.worker.attempt, result) in s.replies
    ensures var r := Sends(s, JoinedWith(s.worker, result));
            && (Agree(r) <==> Clean(s, JoinReturns(result)))
            && (Agree(r) ==> Inv(r))
  {
    var r := Sends(s, JoinedWith(s.worker, result));
    JoinFindsNothing(s, result);
    JoinAgrees(s, r, result);
    JoinChannelOk(s, r, result);
  }

  /** By the time the latest join is answered, nothing is in flight and the manager lists no task. */
  lemma JoinFindsNothing(s: System, result: ManagerState)
    requires Inv(s) && s.worker.waiting && (s.worker.attempt, result) in s.replies
    ensures s.channel == [] && s.worker.state != Registered
    ensures s.me in s.sched.workers ==> ListOf(s) == [] && Elements(ListOf(s)) == {}
  {
    var x := (s.worker.attempt, result);
    assert x in s.replies && x.0 == s.worker.attempt;
  }

  lemma JoinChannelOk(s: System, r: System, result: ManagerState)
    requires Inv(s) && s.channel == [] && s.worker.state != Registered && s.worker.waiting
    requires (s.worker.attempt, result) in s.replies && r == Sends(s, JoinedWith(s.worker, result))
    ensures ChannelOk(r) && Clear(r) && Distinct(r.worker.tasks)
  {
  }

  lemma JoinAgrees(s: System, r: System, result: ManagerState)
    requires s.channel == [] && s.worker.state != Registered && r == Sends(s, JoinedWith(s.worker, result))
    requires s.me in s.sched.workers ==> Elements(ListOf(s)) == {}
    ensures Agree(r) <==> Clean(s, JoinReturns(result))
  {
    if s.me in s.sched.workers {
      if s.worker.state == Recovering && result == Initializing && s.worker.tasks != [] {
        assert r.channel == [PickUp(s.worker.tasks)];
        assert InFlight({}, r.channel) == Effect({}, r.channel[0]);
      } else {
        assert r.channel == [];
        if s.worker.state == Unregistered && s.worker.tasks != [] {
          assert s.worker.tasks[0] in Elements(s.worker.tasks);
        }
      }
    }
  }

  lemma ManagerReceivesInv(s: System, info: Info, time: int)
    requires Inv(s) && s.channel != []
    ensures Inv(Apply(s, ManagerReceives, info, time))
  {
    var r := Apply(s, ManagerReceives, info, time);
    var m := s.channel[0];
    ReceivedList(s.sched, s.me, info, m, time);
    assert s.channel == [m] + r.channel;
    assert ChannelOk(r) by {
      assert forall x <- r.channel :: x in s.channel;
      assert forall p :: 0 <= p < |r.channel| ==> r.channel[p] == s.channel[p + 1];
      if m.Join? { assert m in s.channel; }
    }
    assert Clear(r) by {
      if r.worker.state != Registered && exists x <- r.replies :: x.0 == r.worker.attempt {
        assert !(exists x <- s.replies :: x.0 == s.worker.attempt);
        assert m == Join(s.worker.attempt);
      }
    }
  }

  /** Agreement survives a step exactly when the step is not a first join that finds the worker holding tasks. */
  lemma StepKeepsAgreement(s: System, step: Step, info: Info, time: int)
    requires Inv(s) && Enabled(s, step)
    ensures Agree(Apply(s, step, info, time)) <==> Clean(s, step)
    ensures Clean(s, step) ==> Inv(Apply(s, step, info, time))
  {
    match step {
      case WorkerAdds(t) => WorkerAddsInv(s, t);
      case WorkerRemoves(t) => WorkerRemovesInv(s, t);
      case WorkerLosesContact => CallJoinInv(s, s.worker.(state := Recovering));
      case WorkerCallsJoin => CallJoinInv(s, s.worker);
      case JoinReturns(result) => JoinReturnsInv(s, result);
      case ManagerReceives => ManagerReceivesInv(s, info, time);
      case SchedulerActs(op) => OthersKeepList(s.sched, s.me, op, time);
      case _ =>
    }
  }

  // ----- what a worker keeps and reports

  /** A rejoin that is answered by a manager in service. */
  predicate GivesUp(s: System, step: Step) {
    step == JoinReturns(InService) && s.worker.state == Recovering
  }

  /** A worker gains a task exactly by being given it, and loses it exactly by its removal or by a rejoin at a manager in
      service; in particular a rejoin at an initializing manager loses nothing. */
  lemma TasksChangeExactly(s: System, step: Step, info: Info, time: int, t: Task)
    requires Enabled(s, step) && Distinct(s.worker.tasks)
    ensures t in Apply(s, step, info, time).worker.tasks <==>
            step == WorkerAdds(t) || (t in s.worker.tasks && step != WorkerRemoves(t) && !GivesUp(s, step))
  {
    match step {
      case WorkerRemoves(x) => if x in s.worker.tasks { SchedulerRuns.WithoutFirstIs(s.worker.tasks, x); }
      case _ =>
    }
  }

  /** What a worker sends: a registered worker reports each change of its tasks, a rejoin at an initializing manager
      reports them all, any other answer to a join reports nothing. */
  lemma ReportsExactly(s: System, step: Step, info: Info, time: int)
    requires Enabled(s, step)
    ensures var r := Apply(s, step, info, time);
            match step
            case WorkerAdds(t) =>
              r.channel == s.channel + if t !in s.worker.tasks && s.worker.state == Registered then [PickUp([t])] else []
            case WorkerRemoves(t) =>
              r.channel == s.channel + if t in s.worker.tasks && s.worker.state == Registered then [LaidDown(t)] else []
            case JoinReturns(result) =>
              && r.worker.state == Registered && s.channel <= r.channel
              && InFlight({}, r.channel[|s.channel|..]) ==
                 (if s.worker.state == Recovering && result == Initializing then Elements(s.worker.tasks) else {})
            case WorkerLosesContact => r.worker.state == Recovering && r.channel == s.channel + [Join(s.worker.attempt + 1)]
            case WorkerCallsJoin => r.worker.state == s.worker.state && r.channel == s.channel + [Join(s.worker.attempt + 1)]
            case ManagerReceives => r.channel == s.channel[1..]
            case _ => r.channel == s.channel
  {
    if step.JoinReturns? {
      var r := Apply(s, step, info, time);
      var sent := r.channel[|s.channel|..];
      if s.worker.state == Recovering && step.result == Initializing && s.worker.tasks != [] {
        assert sent == [PickUp(s.worker.tasks)];
        assert InFlight({}, sent) == Effect({}, sent[0]);
      } else {
        assert sent == [];
        assert s.worker.tasks == [] ==> Elements(s.worker.tasks) == {};
      }
    }
  }

  // ----- whole runs

  ghost predicate Run(b: seq<System>, steps: seq<Step>, info: Info, time: int) {
    && |b| == |steps| + 1
    && Init(b[0])
    && forall i :: 0 <= i < |steps| ==> Enabled(b[i], steps[i]) && b[i + 1] == Apply(b[i], steps[i], info, time)
  }

  /** No first join finds the worker holding tasks at a manager that knows it. */
  ghost predicate CleanRun(b: seq<System>, steps: seq<Step>) {
    |b| == |steps| + 1 && forall k :: 0 <= k < |steps| ==> Clean(b[k], steps[k])
  }

  ghost predicate NoTaskBeforeJoining(b: seq<System>, steps: seq<Step>) {
    |b| == |steps| + 1 && forall i :: 0 <= i < |steps| && steps[i].WorkerAdds? ==> b[i].worker.state != Unregistered
  }

  lemma {:induction false} AgreesSoFar(b: seq<System>, steps: seq<Step>, info: Info, time: int, i: nat)
    requires Run(b, steps, info, time) && i < |b| && forall k :: 0 <= k < i ==> Clean(b[k], steps[k])
    ensures Inv(b[i])
  {
    if i == 0 {
      InitInv(b[0]);
    } else {
      AgreesSoFar(b, steps, info, time, i - 1);
      StepKeepsAgreement(b[i - 1], steps[i - 1], info, time);
    }
  }

  lemma {:induction false} CleanSoFar(b: seq<System>, steps: seq<Step>, info: Info, time: int, k: nat)
    requires Run(b, steps, info, time) && k < |steps| && forall i :: 0 <= i < |b| ==> Agree(b[i])
    ensures Inv(b[k]) && Clean(b[k], steps[k])
  {
    if k == 0 {
      InitInv(b[0]);
    } else {
      CleanSoFar(b, steps, info, time, k - 1);
      StepKeepsAgreement(b[k - 1], steps[k - 1], info, time);
    }
    StepKeepsAgreement(b[k], steps[k], info, time);
    assert Agree(b[k + 1]);
  }

  /** Through losses, removals, restarts and rejoins, a registered worker that its manager knows agrees with it at every
      moment of a run, if and only if every step of the run is clean. */
  lemma WorkerAndManagerAgree(b: seq<System>, steps: seq<Step>, info: Info, time: int)
    requires Run(b, steps, info, time)
    ensures (forall i :: 0 <= i < |b| ==> Agree(b[i])) <==> CleanRun(b, steps)
  {
    if CleanRun(b, steps) {
      forall i | 0 <= i < |b| ensures Agree(b[i]) {
        AgreesSoFar(b, steps, info, time, i);
      }
    }
    if forall i :: 0 <= i < |b| ==> Agree(b[i]) {
      forall k | 0 <= k < |steps| ensures Clean(b[k], steps[k]) {
        CleanSoFar(b, steps, info, time, k);
      }
    }
  }

  /** In particular when no task is added before the first join, because then the worker joins holding none. */
  lemma {:induction false} NoTaskIsClean(b: seq<System>, steps: seq<Step>, info: Info, time: int, i: nat)
    requires Run(b, steps, info, time) && NoTaskBeforeJoining(b, steps) && i < |b|
    ensures b[i].worker.state == Unregistered ==> b[i].worker.tasks == []
    ensures i < |steps| ==> Clean(b[i], steps[i])
  {
    if i > 0 {
      NoTaskIsClean(b, steps, info, time, i - 1);
    }
  }

  lemma AgreeAfterJoining(b: seq<System>, steps: seq<Step>, info: Info, time: int, i: nat)
    requires Run(b, steps, info, time) && NoTaskBeforeJoining(b, steps) && i < |b|
    ensures Agree(b[i])
  {
    forall k | 0 <= k < |steps| ensures Clean(b[k], steps[k]) {
      NoTaskIsClean(b, steps, info, time, k);
    }
    WorkerAndManagerAgree(b, steps, info, time);
  }

  /** A task stays with its worker through losses of contact and rejoins, until it is removed or a rejoin is answered by
      a manager in service; and a registered worker's manager, if it knows the worker, is being told of it. */
  lemma {:induction false} TaskStays(b: seq<System>, steps: seq<Step>, info: Info, time: int, i: nat, j: nat, t: Task)
    requires Run(b, steps, info, time) && CleanRun(b, steps) && i <= j < |b| && t in b[i].worker.tasks
    requires forall k :: i <= k < j ==> steps[k] != WorkerRemoves(t) && !GivesUp(b[k], steps[k])
    ensures t in b[j].worker.tasks
    ensures b[j].worker.state == Registered && b[j].me in b[j].sched.workers ==>
              t in InFlight(Elements(ListOf(b[j])), b[j].channel)
  {
    AgreesSoFar(b, steps, info, time, j);
    if i < j {
      TaskStays(b, steps, info, time, i, j - 1, t);
      AgreesSoFar(b, steps, info, time, j - 1);
      TasksChangeExactly(b[j - 1], steps[j - 1], info, time, t);
    }
  }

  /** A task taken on before the first join is never reported. */
  lemma UnreportedTask(me: WorkerId, info: Info, time: int) returns (b: seq<System>, steps: seq<Step>)
    ensures Run(b, steps, info, time) && !Agree(b[|b| - 1])
  {
    steps := [WorkerAdds("t"), WorkerCallsJoin, ManagerReceives, JoinReturns(InService)];
    var s0 := System(me, NewWorker(), [], {}, InService, Empty());
    var s1 := Apply(s0, steps[0], info, time);
    var s2 := Apply(s1, steps[1], info, time);
    assert s2.channel == [Join(1)];
    var s3 := Apply(s2, steps[2], info, time);
    assert (1, InService) in s3.replies && s3.channel == [];
    var s4 := Apply(s3, steps[3], info, time);
    assert s4.channel == [] && "t" in Elements(s4.worker.tasks);
    b := [s0, s1, s2, s3, s4];
  }
}
