/** The results about the scheduler: reservations are never leaked, and scheduling is sticky. */
module SchedulerResults {
  import opened Options
  import opened SchedulerModel
  import opened SchedulerRuns
  import Matcher
  import Scheduler
  import Strategy

  ghost predicate Run(b: seq<State>, ops: seq<Op>, defaultTime: int) {
    && |b| == |ops| + 1
    && b[0] == Empty()
    && forall i :: 0 <= i < |ops| ==> Legal(b[i], ops[i]) && b[i + 1] == Do(b[i], ops[i], defaultTime)
  }

  /** In every reachable state each record is held by its live timer or by its worker running the task, every live
      timer is the timer of the one record it will repeal, and no worker lists a task twice. */
  lemma {:induction false} ReservationInvariant(b: seq<State>, ops: seq<Op>, defaultTime: int, i: nat)
    requires Run(b, ops, defaultTime) && i < |b|
    ensures Inv(b[i])
  {
    if i > 0 {
      ReservationInvariant(b, ops, defaultTime, i - 1);
      DoInv(b[i - 1], ops[i - 1], defaultTime);
    }
  }

  // ----- held once

  /** A task without a usable record is given to a worker that is still running it. */
  predicate Reclaims(s: State, op: Op) {
    && op.DoSchedule? && !Bound(s, op.task)
    && Target(op.choice).Some? && Runs(s, Target(op.choice).value, op.task)
  }

  /** Records stay held by exactly one of timer and worker until a fresh schedule picks a worker that still lists
      the task, and then they do not. */
  lemma ExclusiveUntilReclaimed(s: State, op: Op, defaultTime: int)
    requires Inv(s) && Exclusive(s) && Legal(s, op)
    ensures Exclusive(Do(s, op, defaultTime)) <==> !Reclaims(s, op)
  {
    match op {
      case DoAdd(w, info) => AddInv(s, w, info);
      case DoRemove(w) => if w in s.workers { RemoveInv(s, w); }
      case DoState(w, _) => TouchInv(s, Do(s, op, defaultTime));
      case DoLoad(w, _) => TouchInv(s, Do(s, op, defaultTime));
      case DoPickUp(w, ts) => PickUpExclusive(s, w, ts, defaultTime);
      case DoLayDown(w, t) => LayDownExclusive(s, w, t);
      case DoSchedule(t, time, choice) => ScheduleExclusive(s, t, time, defaultTime, choice);
      case DoUnschedule(w, t) => RepealInv(s, t);
      case DoExpire(id) => FireInv(s, id);
    }
  }

  lemma PickUpExclusive(s: State, w: WorkerId, ts: seq<Task>, defaultTime: int)
    requires Inv(s) && Exclusive(s)
    ensures Exclusive(ExecuteAll(s, w, ts, defaultTime))
  {
    if w in s.workers {
      ExecuteAllInv(s, w, ts, defaultTime);
      var r := ExecuteAll(s, w, ts, defaultTime);
      forall t <- r.tasks ensures !(Live(r, t) && Running(r, t)) {
        if t !in ts { assert !(Live(s, t) && Running(s, t)); }
      }
    } else {
      NoneExecuted(s, w, ts, defaultTime);
    }
  }

  lemma LayDownExclusive(s: State, w: WorkerId, task: Task)
    requires Inv(s) && Exclusive(s)
    ensures Exclusive(LayDown(s, w, task))
  {
    if w in s.workers {
      CancelInv(s, w, task);
      var r := LayDown(s, w, task);
      forall t <- r.tasks ensures !(Live(r, t) && Running(r, t)) {
        if t != task { assert !(Live(s, t) && Running(s, t)); }
      }
    }
  }

  lemma ScheduleExclusive(s: State, task: Task, time: int, defaultTime: int, choice: Choice)
    requires Inv(s) && Exclusive(s)
    ensures Exclusive(Schedule(s, task, time, defaultTime, choice)) <==> !Reclaims(s, DoSchedule(task, time, choice))
  {
    var r := Schedule(s, task, time, defaultTime, choice);
    if Bound(s, task) {
      RenewInv(s, task, time);
    } else {
      FreshInv(s, task, time, defaultTime, choice);
    }
    forall t <- r.tasks | t != task ensures !(Live(r, t) && Running(r, t)) {
      assert !(Live(s, t) && Running(s, t));
    }
    assert forall w, t :: Runs(r, w, t) == Runs(s, w, t);
  }

  /** The workers a fresh schedule can put on record: the available ones, and what a strategy without an answer names. */
  predicate MayBeGiven(s: State, w: WorkerId) {
    w == UNDEFINED || (w in s.workers && Available(s.workers[w]))
  }

  /** The request is for a bound task, or for one that no worker it could be given to is still running. */
  ghost predicate Careful(s: State, op: Op) {
    op.DoSchedule? && !Bound(s, op.task) ==> forall w :: MayBeGiven(s, w) ==> !Runs(s, w, op.task)
  }

  /** Before the request: whatever the strategy answers, records stay held once, exactly when no worker the task could
      be given to is still running it. */
  lemma FreshScheduleIsExclusive(s: State, task: Task, time: int, defaultTime: int)
    requires Inv(s) && Exclusive(s) && !Bound(s, task)
    ensures (forall choice :: Legal(s, DoSchedule(task, time, choice)) ==>
                                Exclusive(Schedule(s, task, time, defaultTime, choice))) <==>
            (forall w :: MayBeGiven(s, w) ==> !Runs(s, w, task))
  {
    forall choice | Legal(s, DoSchedule(task, time, choice))
      ensures Exclusive(Schedule(s, task, time, defaultTime, choice)) <==> !Reclaims(s, DoSchedule(task, time, choice))
      ensures Reclaims(s, DoSchedule(task, time, choice)) ==> MayBeGiven(s, Target(choice).value)
    {
      ScheduleExclusive(s, task, time, defaultTime, choice);
    }
    forall w | MayBeGiven(s, w) && Runs(s, w, task)
      ensures exists choice :: Legal(s, DoSchedule(task, time, choice)) && !Exclusive(Schedule(s, task, time, defaultTime, choice))
    {
      var choice := if w == UNDEFINED then Nobody else Chosen(w);
      assert Reclaims(s, DoSchedule(task, time, choice));
      assert Legal(s, DoSchedule(task, time, choice)) && !Exclusive(Schedule(s, task, time, defaultTime, choice));
    }
  }

  /** Over a run: records have been held once as long as no task was reclaimed. */
  lemma {:induction false} ExclusiveSoFar(b: seq<State>, ops: seq<Op>, defaultTime: int, i: nat)
    requires Run(b, ops, defaultTime) && i < |b|
    requires forall k :: 0 <= k < i ==> !Reclaims(b[k], ops[k])
    ensures Exclusive(b[i])
  {
    if i > 0 {
      ExclusiveSoFar(b, ops, defaultTime, i - 1);
      ReservationInvariant(b, ops, defaultTime, i - 1);
      ExclusiveUntilReclaimed(b[i - 1], ops[i - 1], defaultTime);
    }
  }

  /** Every record of a run is held exactly once at every moment if and only if no operation reclaims a task. */
  lemma AlwaysExclusive(b: seq<State>, ops: seq<Op>, defaultTime: int)
    requires Run(b, ops, defaultTime)
    ensures (forall i :: 0 <= i < |b| ==> HeldOk(b[i]) && Exclusive(b[i])) <==>
            (forall k :: 0 <= k < |ops| ==> !Reclaims(b[k], ops[k]))
  {
    forall i | 0 <= i < |b| ensures HeldOk(b[i]) {
      ReservationInvariant(b, ops, defaultTime, i);
    }
    if forall k :: 0 <= k < |ops| ==> !Reclaims(b[k], ops[k]) {
      forall i | 0 <= i < |b| ensures Exclusive(b[i]) {
        ExclusiveSoFar(b, ops, defaultTime, i);
      }
    }
    if forall i :: 0 <= i < |b| ==> HeldOk(b[i]) && Exclusive(b[i]) {
      forall k | 0 <= k < |ops| ensures !Reclaims(b[k], ops[k]) {
        ReservationInvariant(b, ops, defaultTime, k);
        ExclusiveUntilReclaimed(b[k], ops[k], defaultTime);
        assert Exclusive(b[k]) && Exclusive(b[k + 1]);
      }
    }
  }

  /** So callers that make only careful requests keep every record held exactly once. */
  lemma CarefulRunIsExclusive(b: seq<State>, ops: seq<Op>, defaultTime: int, i: nat)
    requires Run(b, ops, defaultTime) && i < |b|
    requires forall k :: 0 <= k < i ==> Careful(b[k], ops[k])
    ensures HeldOk(b[i]) && Exclusive(b[i])
  {
    forall k | 0 <= k < i ensures !Reclaims(b[k], ops[k]) {
      assert Careful(b[k], ops[k]) && Legal(b[k], ops[k]);
      if Reclaims(b[k], ops[k]) {
        assert MayBeGiven(b[k], Target(ops[k].choice).value);
      }
    }
    ExclusiveSoFar(b, ops, defaultTime, i);
    ReservationInvariant(b, ops, defaultTime, i);
  }

  /** And it happens: a running task that is unscheduled and then scheduled again to the same worker, which is still
      available, is held by a timer that will repeal it while it runs. Whatever the strategy, that worker is a right
      answer to the last request. */
  lemma ReclaimHappens(info: Info, load: real, defaultTime: int) returns (b: seq<State>, ops: seq<Op>)
    requires defaultTime > 0 && info.maxLoad.Some? && 0.0 <= load < info.maxLoad.value && load < 1.0
    ensures Run(b, ops, defaultTime) && |ops| == 5 && ops[4] == DoSchedule("t", 0, Chosen("w"))
    ensures forall w <- b[4].order :: w in b[4].workers
    ensures forall kind, preference ::
              Scheduler.Explains(Matcher.General, kind, b[4], preference, Scheduler.Scheduled("w"))
    ensures Exclusive(b[4]) && !Exclusive(b[5])
  {
    b, ops := StillRunning(info, load, defaultTime);
    OneCandidate(b[4]);
    Rescheduled(Worker(None, load, info, []), defaultTime);
    b, ops := Then(b, ops, DoSchedule("t", 0, Chosen("w")), defaultTime);
  }

  lemma StillRunning(info: Info, load: real, defaultTime: int) returns (b: seq<State>, ops: seq<Op>)
    ensures Run(b, ops, defaultTime) && |ops| == 4
    ensures b[4] == OneWorker(Worker(None, load, info, ["t"]), map[])
  {
    b, ops := [Empty()], [];
    b, ops := Then(b, ops, DoAdd("w", info), defaultTime);
    b, ops := Then(b, ops, DoLoad("w", load), defaultTime);
    assert b[2] == OneWorker(Worker(None, load, info, []), map[]);
    PicksUp(Worker(None, load, info, []), defaultTime);
    b, ops := Then(b, ops, DoPickUp("w", ["t"]), defaultTime);
    b, ops := Then(b, ops, DoUnschedule("w", "t"), defaultTime);
  }

  lemma Then(b: seq<State>, ops: seq<Op>, op: Op, defaultTime: int) returns (b': seq<State>, ops': seq<Op>)
    requires Run(b, ops, defaultTime) && Legal(b[|b| - 1], op)
    ensures Run(b', ops', defaultTime) && ops' == ops + [op] && b' == b + [Do(b[|b| - 1], op, defaultTime)]
  {
    b', ops' := b + [Do(b[|b| - 1], op, defaultTime)], ops + [op];
  }

  function OneWorker(x: Worker, tasks: map<Task, Record>): State {
    State(["w"], map["w" := x], tasks, map[], 0)
  }

  lemma PicksUp(x: Worker, defaultTime: int)
    requires x.tasks == []
    ensures ExecuteAll(OneWorker(x, map[]), "w", ["t"], defaultTime) ==
            OneWorker(x.(tasks := ["t"]), map["t" := Record("w", defaultTime, None)])
  {
    var s := OneWorker(x, map[]);
    var l := OneWorker(x.(tasks := ["t"]), map[]);
    assert [] + ["t"] == ["t"] && SetTasks(s, "w", ["t"]) == l;
    assert Claim(l, "w", "t", defaultTime) == l.(tasks := map["t" := Record("w", defaultTime, None)]);
    assert Execute(s, "w", "t", defaultTime) == Claim(l, "w", "t", defaultTime);
    assert ["t"][..0] == [] && ExecuteAll(s, "w", [], defaultTime) == s;
  }

  lemma Rescheduled(x: Worker, defaultTime: int)
    ensures !Exclusive(Schedule(OneWorker(x.(tasks := ["t"]), map[]), "t", 0, defaultTime, Chosen("w")))
  {
    var r := Schedule(OneWorker(x.(tasks := ["t"]), map[]), "t", 0, defaultTime, Chosen("w"));
    assert Live(r, "t") && Running(r, "t");
  }

  lemma OneCandidate(s: State)
    requires s.order == ["w"] && s.workers.Keys == {"w"} && Available(s.workers["w"]) && 0.0 <= s.workers["w"].load < 1.0
    ensures forall kind, preference ::
              Scheduler.Explains(Matcher.General, kind, s, preference, Scheduler.Scheduled("w"))
  {
    OnlyCandidate(s);
    forall kind, preference
      ensures Scheduler.Explains(Matcher.General, kind, s, preference, Scheduler.Scheduled("w"))
    {
      RightAnswer(s, kind, preference);
    }
  }

  lemma OnlyCandidate(s: State)
    requires s.order == ["w"] && s.workers.Keys == {"w"} && Available(s.workers["w"])
    ensures Candidates(s, s.order) == ["w"]
  {
    assert ["w"][..0] == [] && Candidates(s, []) == [];
  }

  lemma RightAnswer(s: State, kind: Strategy.Kind, preference: Matcher.Preference)
    requires s.order == ["w"] && s.workers.Keys == {"w"} && Available(s.workers["w"]) && 0.0 <= s.workers["w"].load < 1.0
    requires Candidates(s, s.order) == ["w"]
    ensures Scheduler.Explains(Matcher.General, kind, s, preference, Scheduler.Scheduled("w"))
  {
    var ms := Matcher.Matching(Matcher.General, s.workers, preference, Candidates(s, s.order));
    assert ms == ["w"] && ms[0] == "w";
  }

  /** Asking who has a task: after a schedule the worker of its answer, of an unbound task nobody after a refusal; the
      worker named holds a live reservation or runs the task. */
  lemma ScheduleThenLookUp(s: State, task: Task, time: int, defaultTime: int, choice: Choice)
    requires Inv(s)
    ensures var r := Schedule(s, task, time, defaultTime, choice);
            && LookUp(r, task) == (if Bound(s, task) then LookUp(s, task) else Target(choice))
            && (LookUp(r, task).Some? ==> Live(r, task) || Runs(r, LookUp(r, task).value, task))
            && forall t | t != task :: LookUp(r, t) == LookUp(s, t)
  {
    if Bound(s, task) {
      RenewInv(s, task, time);
    } else {
      FreshInv(s, task, time, defaultTime, choice);
    }
    var r := Schedule(s, task, time, defaultTime, choice);
    assert LookUp(r, task).Some? ==> Live(r, task) || Running(r, task);
  }

  // ----- sticky scheduling

  /** The operations that end a task's binding to a registered worker. */
  predicate Breaks(s: State, op: Op, task: Task)
    requires Bound(s, task)
  {
    var w := s.tasks[task].worker;
    match op
    case DoRemove(x) => x == w
    case DoPickUp(x, ts) => x in s.workers && x != w && task in ts
    case DoLayDown(x, t) => x in s.workers && t == task && (Runs(s, x, t) ==> x != w)
    case DoUnschedule(x, t) => t == task && x == w
    case DoExpire(id) => id in s.armed && s.armed[id] == task
    case _ => false
  }

  predicate StillBound(s: State, r: State, task: Task)
    requires Bound(s, task)
  {
    Bound(r, task) && r.tasks[task].worker == s.tasks[task].worker
  }

  ghost predicate Sticks(s: State, op: Op, task: Task, r: State)
    requires Bound(s, task)
  {
    && (op.DoSchedule? ==> task in r.tasks)
    && (StillBound(s, r, task) <==> !Breaks(s, op, task))
    && (StillBound(s, r, task) ==> r.tasks[task].reserveTime >= s.tasks[task].reserveTime)
    && (op.DoSchedule? && op.task == task && op.reserveTime != 0 ==> r.tasks[task].reserveTime >= op.reserveTime)
    && (StillBound(s, r, task) && r.tasks[task].reserveTime != s.tasks[task].reserveTime ==>
          op.DoSchedule? && op.task == task && r.tasks[task].reserveTime == op.reserveTime)
  }

  /** A binding survives an operation exactly when the operation is not one of those; and while it survives, the
      reservation time never decreases. */
  lemma BindingIsSticky(s: State, op: Op, task: Task, defaultTime: int)
    requires Inv(s) && Legal(s, op) && Bound(s, task)
    ensures Sticks(s, op, task, Do(s, op, defaultTime))
  {
    match op {
      case DoRemove(w) => StickyRemove(s, w, task);
      case DoPickUp(w, ts) => StickyPickUp(s, w, ts, task, defaultTime);
      case DoLayDown(w, t) => StickyLayDown(s, w, t, task);
      case DoSchedule(t, time, choice) => StickySchedule(s, t, time, choice, task, defaultTime);
      case DoUnschedule(w, t) => StickyUnschedule(s, w, t, task);
      case DoExpire(id) => FireInv(s, id);
      case _ => StickyUpdate(s, op, task, defaultTime);
    }
  }

  lemma StickyUpdate(s: State, op: Op, task: Task, defaultTime: int)
    requires Inv(s) && Legal(s, op) && Bound(s, task) && (op.DoAdd? || op.DoState? || op.DoLoad?)
    ensures Sticks(s, op, task, Do(s, op, defaultTime))
  {
  }

  lemma StickyUnschedule(s: State, w: WorkerId, t: Task, task: Task)
    requires Inv(s) && Bound(s, task)
    ensures Sticks(s, DoUnschedule(w, t), task, Unschedule(s, w, t))
  {
  }

  lemma StickyRemove(s: State, w: WorkerId, task: Task)
    requires Inv(s) && Bound(s, task)
    ensures Sticks(s, DoRemove(w), task, Remove(s, w))
  {
    if w in s.workers { RemoveInv(s, w); }
  }

  lemma StickyPickUp(s: State, w: WorkerId, ts: seq<Task>, task: Task, defaultTime: int)
    requires Inv(s) && Bound(s, task)
    ensures Sticks(s, DoPickUp(w, ts), task, ExecuteAll(s, w, ts, defaultTime))
  {
    if w in s.workers {
      ExecuteAllInv(s, w, ts, defaultTime);
    } else {
      NoneExecuted(s, w, ts, defaultTime);
    }
  }

  lemma StickyLayDown(s: State, w: WorkerId, t: Task, task: Task)
    requires Inv(s) && Bound(s, task)
    ensures Sticks(s, DoLayDown(w, t), task, LayDown(s, w, t))
  {
    CancelInv(s, w, t);
  }

  lemma StickySchedule(s: State, t: Task, time: int, choice: Choice, task: Task, defaultTime: int)
    requires Inv(s) && Bound(s, task)
    ensures Sticks(s, DoSchedule(t, time, choice), task, Schedule(s, t, time, defaultTime, choice))
  {
    if Bound(s, t) {
      RenewInv(s, t, time);
    } else {
      FreshInv(s, t, time, defaultTime, choice);
    }
  }

  /** Over a whole run: from a moment when the task is bound, through any operations none of which breaks the
      binding, the task stays with the same registered worker. */
  lemma {:induction false} StaysWithItsWorker(b: seq<State>, ops: seq<Op>, defaultTime: int, i: nat, j: nat, task: Task)
    requires Run(b, ops, defaultTime) && i <= j < |b| && Bound(b[i], task)
    requires forall k :: i <= k < j && Bound(b[k], task) ==> !Breaks(b[k], ops[k], task)
    ensures StillBound(b[i], b[j], task) && b[j].tasks[task].reserveTime >= b[i].tasks[task].reserveTime
  {
    if i < j {
      StaysWithItsWorker(b, ops, defaultTime, i, j - 1, task);
      StaysOneStep(b, ops, defaultTime, j - 1, task);
    }
  }

  lemma StaysOneStep(b: seq<State>, ops: seq<Op>, defaultTime: int, k: nat, task: Task)
    requires Run(b, ops, defaultTime) && k < |ops| && Bound(b[k], task)
    ensures Sticks(b[k], ops[k], task, b[k + 1])
  {
    ReservationInvariant(b, ops, defaultTime, k);
    BindingIsSticky(b[k], ops[k], task, defaultTime);
  }

  /** And whatever time a request in between has asked for, the reservation is for at least that long ever after. */
  lemma LongEnough(b: seq<State>, ops: seq<Op>, defaultTime: int, i: nat, k: nat, j: nat, task: Task)
    requires Run(b, ops, defaultTime) && i <= k < j < |b| && Bound(b[i], task)
    requires forall k :: i <= k < j && Bound(b[k], task) ==> !Breaks(b[k], ops[k], task)
    requires AsksFor(ops[k], task)
    ensures task in b[j].tasks && b[j].tasks[task].reserveTime >= ops[k].reserveTime
  {
    StaysWithItsWorker(b, ops, defaultTime, i, k, task);
    StaysOneStep(b, ops, defaultTime, k, task);
    StaysWithItsWorker(b, ops, defaultTime, k + 1, j, task);
  }

  predicate AsksFor(op: Op, task: Task) {
    op.DoSchedule? && op.task == task && op.reserveTime != 0
  }

  /** An unscheduling deletes exactly a record that names the worker, live or not, registered or not. */
  lemma UnscheduleIs(s: State, w: WorkerId, task: Task)
    requires Inv(s)
    ensures var r := Unschedule(s, w, task);
            && LookUp(r, task) == (if LookUp(s, task) == Some(w) then None else LookUp(s, task))
            && (forall t | t != task :: LookUp(r, t) == LookUp(s, t) && Live(r, t) == Live(s, t))
            && (LookUp(s, task) != Some(w) ==> r == s) && r.workers == s.workers
  {
    RepealInv(s, task);
    var r := Unschedule(s, w, task);
    forall t | t != task ensures LookUp(r, t) == LookUp(s, t) && Live(r, t) == Live(s, t) {
      assert t in r.tasks <==> t in s.tasks;
    }
  }

  // ----- which workers are available

  /** A worker that is available has reported its load since it was added; whatever limit it was added with, being added
      does not make it available. */
  lemma {:induction false} AvailableAfterReport(b: seq<State>, ops: seq<Op>, defaultTime: int, i: nat, w: WorkerId)
    requires Run(b, ops, defaultTime) && i < |b| && w in b[i].workers
    ensures b[i].workers[w].load == InitialLoad(b[i].workers[w].info) || Reported(ops, i, w, b[i].workers[w].load)
    ensures Available(b[i].workers[w]) ==> Reported(ops, i, w, b[i].workers[w].load)
  {
    if i > 0 {
      OneOpWorker(b[i - 1], ops[i - 1], defaultTime, w);
      if w in b[i - 1].workers {
        AvailableAfterReport(b, ops, defaultTime, i - 1, w);
      }
      var l := b[i].workers[w].load;
      if i > 0 && w in b[i - 1].workers && Reported(ops, i - 1, w, l) {
        var j: nat :| j < i - 1 && ops[j] == DoLoad(w, l);
      }
      if ops[i - 1] == DoLoad(w, l) {
        assert Reported(ops, i, w, l);
      }
    }
  }

  ghost predicate Reported(ops: seq<Op>, i: nat, w: WorkerId, load: real)
    requires i <= |ops|
  {
    exists j: nat | j < i :: ops[j] == DoLoad(w, load)
  }

  /** Only its own reports change a worker's load and state, and it keeps the limit it was added with. */
  lemma OneOpWorker(s: State, op: Op, defaultTime: int, w: WorkerId)
    requires Legal(s, op) && w in Do(s, op, defaultTime).workers
    ensures var x := Do(s, op, defaultTime).workers[w];
            if w !in s.workers then op.DoAdd? && op.worker == w && x.info == op.info && x.state == None && x.tasks == []
                 && x.load == (if op.info.maxLoad.Some? && op.info.maxLoad.value != 0.0 then op.info.maxLoad.value else 1.0)
            else
              && x.info == s.workers[w].info
              && x.load == (if op.DoLoad? && op.worker == w then op.load else s.workers[w].load)
              && x.state == (if op.DoState? && op.worker == w then Some(op.state) else s.workers[w].state)
  {
    match op {
      case DoRemove(x) => if x in s.workers { EvictKeepsWorkers(s, x, s.workers[x].tasks); }
      case DoPickUp(x, ts) => ExecuteAllKeeps(s, x, ts, defaultTime, w);
      case _ =>
    }
  }

  lemma {:induction false} ExecuteAllKeeps(s: State, x: WorkerId, ts: seq<Task>, time: int, w: WorkerId)
    ensures SameButTasks(s, ExecuteAll(s, x, ts, time), w)
  {
    if ts != [] {
      var e := ExecuteAll(s, x, ts[..|ts| - 1], time);
      ExecuteAllKeeps(s, x, ts[..|ts| - 1], time, w);
      ExecuteKeeps(e, x, ts[|ts| - 1], time, w);
    }
  }

  predicate SameButTasks(s: State, r: State, w: WorkerId) {
    && (w in r.workers <==> w in s.workers)
    && (w in s.workers ==> r.workers[w] == s.workers[w].(tasks := r.workers[w].tasks))
  }

  lemma ExecuteKeeps(s: State, x: WorkerId, t: Task, time: int, w: WorkerId)
    ensures SameButTasks(s, Execute(s, x, t, time), w)
  {
  }

  /** Once it has reported, a worker is available exactly while its load is below its limit and its state, if it has
      reported one, is 2. */
  lemma AvailableExactly(x: Worker)
    ensures Available(x) <==> x.info.maxLoad.Some? && x.load < x.info.maxLoad.value && (x.state == None || x.state == Some(2))
  {
  }
}
