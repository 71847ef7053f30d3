/** What every operation keeps, over all runs of a scheduler that is given each worker id only while it is absent. */
module SchedulerRuns {
  import opened Options
  import opened Sequences
  import opened SchedulerModel

  datatype Op =
    | DoAdd(worker: WorkerId, info: Info)
    | DoRemove(worker: WorkerId)
    | DoState(worker: WorkerId, state: int)
    | DoLoad(worker: WorkerId, load: real)
    | DoPickUp(worker: WorkerId, tasks: seq<Task>)
    | DoLayDown(worker: WorkerId, task: Task)
    | DoSchedule(task: Task, reserveTime: int, choice: Choice)
    | DoUnschedule(worker: WorkerId, task: Task)
    | DoExpire(timer: TimerId)

  /** Workers are added while absent, and a task that is not bound is given to an available worker, if to any. */
  predicate Legal(s: State, op: Op) {
    match op
    case DoAdd(w, _) => w !in s.workers
    case DoSchedule(t, _, choice) =>
      choice.Chosen? && !Bound(s, t) ==> choice.worker in s.workers && Available(s.workers[choice.worker])
    case DoExpire(id) => id in s.armed
    case _ => true
  }

  function Do(s: State, op: Op, defaultTime: int): State
    requires Legal(s, op)
  {
    match op
    case DoAdd(w, info) => Add(s, w, info)
    case DoRemove(w) => Remove(s, w)
    case DoState(w, st) => if w in s.workers then s.(workers := s.workers[w := s.workers[w].(state := Some(st))]) else s
    case DoLoad(w, l) => if w in s.workers then s.(workers := s.workers[w := s.workers[w].(load := l)]) else s
    case DoPickUp(w, ts) => ExecuteAll(s, w, ts, defaultTime)
    case DoLayDown(w, t) => LayDown(s, w, t)
    case DoSchedule(t, time, choice) => Schedule(s, t, time, defaultTime, choice)
    case DoUnschedule(w, t) => Unschedule(s, w, t)
    case DoExpire(id) => Fire(s, id)
  }

  // ----- the invariant

  /** The record's reservation timer has neither fired nor been cleared. */
  predicate Live(s: State, task: Task) {
    task in s.tasks && s.tasks[task].timer.Some? && s.tasks[task].timer.value in s.armed
  }

  predicate Running(s: State, task: Task) {
    task in s.tasks && Runs(s, s.tasks[task].worker, task)
  }

  ghost predicate ListsOk(s: State) {
    && Distinct(s.order)
    && (forall w :: w in s.order <==> w in s.workers)
    && (forall w <- s.workers :: Distinct(s.workers[w].tasks))
  }

  /** Every armed timer is the current timer of the record it will repeal. */
  ghost predicate TimersOk(s: State) {
    && (forall id <- s.armed :: id < s.nextTimer && s.armed[id] in s.tasks && s.tasks[s.armed[id]].timer == Some(id))
    && (forall t <- s.tasks :: s.tasks[t].timer.Some? ==> s.tasks[t].timer.value < s.nextTimer)
    && (forall t <- s.tasks :: Live(s, t) ==> s.armed[s.tasks[t].timer.value] == t)
  }

  /** No record is left behind: each is held by a live timer or by its worker running the task. */
  ghost predicate HeldOk(s: State) {
    forall t <- s.tasks :: Live(s, t) || Running(s, t)
  }

  ghost predicate Inv(s: State) {
    ListsOk(s) && TimersOk(s) && HeldOk(s)
  }

  /** No record is held by both. */
  ghost predicate Exclusive(s: State) {
    forall t <- s.tasks :: !(Live(s, t) && Running(s, t))
  }

  // ----- records and timers

  /** Everything but the given task is held. */
  ghost predicate HeldBut(s: State, task: Task) {
    forall t <- s.tasks :: t == task || Live(s, t) || Running(s, t)
  }

  lemma DisarmOk(s: State, task: Task)
    requires TimersOk(s)
    ensures var d := Disarm(s, task);
            && TimersOk(d) && d.tasks == s.tasks && !Live(d, task)
            && (forall t <- s.tasks | t != task :: Live(d, t) == Live(s, t))
            && (forall id <- d.armed :: d.armed[id] != task)
  {
  }

  lemma ArmOk(d: State, task: Task, worker: WorkerId, time: int)
    requires TimersOk(d) && forall id <- d.armed :: d.armed[id] != task
    ensures var r := d.(tasks := d.tasks[task := Record(worker, time, Some(d.nextTimer))],
                        armed := d.armed[d.nextTimer := task], nextTimer := d.nextTimer + 1);
            && TimersOk(r) && Live(r, task)
            && (forall t <- d.tasks | t != task :: Live(r, t) == Live(d, t))
  {
  }

  lemma RewriteOk(d: State, task: Task, rec: Record)
    requires TimersOk(d) && forall id <- d.armed :: d.armed[id] != task
    requires rec.timer.Some? ==> rec.timer.value < d.nextTimer && rec.timer.value !in d.armed
    ensures var r := d.(tasks := d.tasks[task := rec]);
            && TimersOk(r) && !Live(r, task)
            && (forall t <- d.tasks | t != task :: Live(r, t) == Live(d, t))
  {
  }

  lemma ReserveInv(s: State, task: Task, worker: WorkerId, time: int)
    requires ListsOk(s) && TimersOk(s) && HeldBut(s, task)
    ensures var r := Reserve(s, task, worker, time);
            && Inv(r) && r.workers == s.workers && Live(r, task)
            && r.tasks == s.tasks[task := r.tasks[task]] && r.tasks[task].worker == worker && r.tasks[task].reserveTime == time
            && forall t <- s.tasks | t != task :: Live(r, t) == Live(s, t)
  {
    var d := Disarm(s, task);
    DisarmOk(s, task);
    ArmOk(d, task, worker, time);
    var r := Reserve(s, task, worker, time);
    assert ListsOk(r);
    forall t <- r.tasks ensures Live(r, t) || Running(r, t) {
      if t != task { assert Live(s, t) || Running(s, t); }
    }
  }

  lemma RepealInv(s: State, task: Task)
    requires ListsOk(s) && TimersOk(s) && HeldBut(s, task)
    ensures var r := Repeal(s, task);
            && Inv(r) && r.workers == s.workers && r.order == s.order && r.tasks == s.tasks - {task}
            && forall t <- r.tasks :: Live(r, t) == Live(s, t)
  {
    DisarmOk(s, task);
    var r := Repeal(s, task);
    forall t <- r.tasks ensures Live(r, t) == Live(s, t) && (Live(r, t) || Running(r, t)) {
      assert Live(s, t) || Running(s, t);
    }
  }

  lemma FireInv(s: State, id: TimerId)
    requires Inv(s) && id in s.armed
    ensures var r := Fire(s, id);
            && Inv(r) && r.workers == s.workers && r.tasks == s.tasks - {s.armed[id]}
            && forall t <- r.tasks :: Live(r, t) == Live(s, t)
  {
  }

  // ----- running tasks

  lemma SetTasksOk(s: State, worker: WorkerId, ts: seq<Task>)
    requires ListsOk(s) && TimersOk(s) && worker in s.workers && Distinct(ts)
    ensures var r := SetTasks(s, worker, ts);
            && ListsOk(r) && TimersOk(r) && r.workers.Keys == s.workers.Keys && r.tasks == s.tasks && r.armed == s.armed
            && forall w, t :: Runs(r, w, t) == if w == worker then t in ts else Runs(s, w, t)
  {
  }

  lemma ClaimInv(s: State, worker: WorkerId, task: Task, time: int)
    requires ListsOk(s) && TimersOk(s) && HeldBut(s, task) && Runs(s, worker, task)
    ensures var r := Claim(s, worker, task, time);
            && Inv(r) && r.workers == s.workers
            && task in r.tasks && r.tasks[task].worker == worker && !Live(r, task)
            && r.tasks == s.tasks[task := r.tasks[task]]
            && r.tasks[task].reserveTime == (if task in s.tasks then s.tasks[task].reserveTime else time)
            && forall t <- s.tasks | t != task :: Live(r, t) == Live(s, t)
  {
    var d := Disarm(s, task);
    DisarmOk(s, task);
    var r := Claim(s, worker, task, time);
    RewriteOk(d, task, r.tasks[task]);
    assert r == d.(tasks := d.tasks[task := r.tasks[task]]);
    forall t <- r.tasks ensures Live(r, t) || Running(r, t) {
      if t != task { assert Live(s, t) || Running(s, t); }
    }
  }

  lemma ExecuteInv(s: State, worker: WorkerId, task: Task, time: int)
    requires Inv(s) && worker in s.workers
    ensures var r := Execute(s, worker, task, time);
            && Inv(r) && r.workers.Keys == s.workers.Keys
            && (forall w, t :: Runs(r, w, t) == (Runs(s, w, t) || (w == worker && t == task)))
            && task in r.tasks && r.tasks[task].worker == worker && !Live(r, task)
            && r.tasks == s.tasks[task := r.tasks[task]]
            && r.tasks[task].reserveTime == (if task in s.tasks then s.tasks[task].reserveTime else time)
            && forall t <- s.tasks | t != task :: Live(r, t) == Live(s, t)
  {
    var l := if Runs(s, worker, task) then s else SetTasks(s, worker, s.workers[worker].tasks + [task]);
    if !Runs(s, worker, task) {
      SetTasksOk(s, worker, s.workers[worker].tasks + [task]);
    }
    assert forall w, t :: Runs(l, w, t) == (Runs(s, w, t) || (w == worker && t == task));
    assert HeldBut(l, task);
    ClaimInv(l, worker, task, time);
    assert Execute(s, worker, task, time) == Claim(l, worker, task, time);
  }

  lemma WithoutFirstIs(ts: seq<Task>, task: Task)
    requires Distinct(ts) && task in ts
    ensures Distinct(WithoutFirst(ts, task))
    ensures forall t :: t in WithoutFirst(ts, task) <==> t in ts && t != task
  {
  }

  lemma CancelInv(s: State, worker: WorkerId, task: Task)
    requires Inv(s)
    ensures var r := Cancel(s, worker, task);
            && Inv(r) && r.workers.Keys == s.workers.Keys
            && (forall w, t :: Runs(r, w, t) == (Runs(s, w, t) && !(w == worker && t == task)))
            && (forall t <- s.tasks | t != task :: t in r.tasks && r.tasks[t] == s.tasks[t] && Live(r, t) == Live(s, t))
            && r.tasks.Keys <= s.tasks.Keys
            && (task in r.tasks <==> task in s.tasks && Runs(s, worker, task))
            && (task in r.tasks ==> r.tasks[task].worker == worker && r.tasks[task].reserveTime == s.tasks[task].reserveTime)
  {
    if Runs(s, worker, task) {
      StopInv(s, worker, task);
    } else if task in s.tasks {
      RepealInv(s, task);
    }
  }

  /** Taking a task off a worker's list leaves every other record held. */
  lemma StopOk(s: State, worker: WorkerId, task: Task)
    requires Inv(s) && Runs(s, worker, task)
    ensures var l := SetTasks(s, worker, WithoutFirst(s.workers[worker].tasks, task));
            && ListsOk(l) && TimersOk(l) && HeldBut(l, task) && (task !in l.tasks ==> HeldOk(l))
            && l.workers.Keys == s.workers.Keys && l.tasks == s.tasks && l.armed == s.armed
            && forall w, t :: Runs(l, w, t) == (Runs(s, w, t) && !(w == worker && t == task))
  {
    var ts := WithoutFirst(s.workers[worker].tasks, task);
    WithoutFirstIs(s.workers[worker].tasks, task);
    SetTasksOk(s, worker, ts);
    var l := SetTasks(s, worker, ts);
    forall t <- l.tasks | t != task ensures Live(l, t) || Running(l, t) {
      assert Live(s, t) || Running(s, t);
    }
  }

  lemma StopInv(s: State, worker: WorkerId, task: Task)
    requires Inv(s) && Runs(s, worker, task)
    ensures var r := Cancel(s, worker, task);
            && Inv(r) && r.workers.Keys == s.workers.Keys && r.tasks.Keys == s.tasks.Keys
            && (forall w, t :: Runs(r, w, t) == (Runs(s, w, t) && !(w == worker && t == task)))
            && (forall t <- s.tasks | t != task :: r.tasks[t] == s.tasks[t] && Live(r, t) == Live(s, t))
            && (task in r.tasks ==> r.tasks[task].worker == worker && r.tasks[task].reserveTime == s.tasks[task].reserveTime)
  {
    StopOk(s, worker, task);
    var l := SetTasks(s, worker, WithoutFirst(s.workers[worker].tasks, task));
    if task in l.tasks {
      ReserveInv(l, task, worker, l.tasks[task].reserveTime);
    }
  }

  // ----- several tasks at once

  /** From s to r the worker has taken over the tasks. */
  ghost predicate TakenOver(s: State, r: State, worker: WorkerId, ts: seq<Task>) {
    && r.workers.Keys == s.workers.Keys
    && (forall w, t :: Runs(r, w, t) == (Runs(s, w, t) || (w == worker && t in ts)))
    && (forall t <- s.tasks | t !in ts :: t in r.tasks && r.tasks[t] == s.tasks[t] && Live(r, t) == Live(s, t))
    && (forall t <- ts :: t in r.tasks && r.tasks[t].worker == worker && !Live(r, t))
    && (forall t <- ts | t in s.tasks :: r.tasks[t].reserveTime == s.tasks[t].reserveTime)
    && (forall t <- r.tasks :: t in s.tasks || t in ts)
  }

  lemma TakenOverNext(s: State, e: State, r: State, worker: WorkerId, ts: seq<Task>, task: Task)
    requires TakenOver(s, e, worker, ts) && TakenOver(e, r, worker, [task])
    ensures TakenOver(s, r, worker, ts + [task])
  {
    forall w, t ensures Runs(r, w, t) == (Runs(s, w, t) || (w == worker && t in ts + [task])) {
      assert Runs(r, w, t) == (Runs(e, w, t) || (w == worker && t in [task]));
    }
    forall t | t in ts + [task]
      ensures t in r.tasks && r.tasks[t].worker == worker && !Live(r, t)
      ensures t in s.tasks ==> r.tasks[t].reserveTime == s.tasks[t].reserveTime
    {
      assert t != task ==> t !in [task] && t in e.tasks;
    }
  }

  lemma {:induction false} ExecuteAllInv(s: State, worker: WorkerId, ts: seq<Task>, time: int)
    requires Inv(s) && worker in s.workers
    ensures Inv(ExecuteAll(s, worker, ts, time)) && TakenOver(s, ExecuteAll(s, worker, ts, time), worker, ts)
  {
    if ts != [] {
      var init, last := ts[..|ts| - 1], ts[|ts| - 1];
      assert ts == init + [last];
      ExecuteAllInv(s, worker, init, time);
      var e := ExecuteAll(s, worker, init, time);
      ExecuteInv(e, worker, last, time);
      TakenOverNext(s, e, Execute(e, worker, last, time), worker, init, last);
    }
  }

  lemma {:induction false} EvictKeepsWorkers(s: State, w: WorkerId, ts: seq<Task>)
    ensures Evict(s, w, ts).workers == s.workers
  {
    if ts != [] { EvictKeepsWorkers(s, w, ts[..|ts| - 1]); }
  }

  /** Evicting a worker's tasks deletes exactly the records of those tasks that name the worker. */
  lemma {:induction false} EvictIs(s: State, worker: WorkerId, ts: seq<Task>)
    requires Inv(s)
    ensures var e := Evict(s, worker, ts);
            && Inv(e) && e.workers == s.workers && e.order == s.order
            && (forall t :: t in e.tasks <==> t in s.tasks && !(t in ts && s.tasks[t].worker == worker))
            && (forall t <- e.tasks :: e.tasks[t] == s.tasks[t] && Live(e, t) == Live(s, t))
  {
    if ts != [] {
      var init, last := ts[..|ts| - 1], ts[|ts| - 1];
      assert ts == init + [last];
      EvictIs(s, worker, init);
      var e := Evict(s, worker, init);
      if Held(e, worker, last) {
        RepealInv(e, last);
      }
    }
  }

  lemma {:induction false} RemovedIs(order: seq<WorkerId>, worker: WorkerId)
    requires Distinct(order)
    ensures Distinct(Removed(order, worker))
    ensures forall w :: w in Removed(order, worker) <==> w in order && w != worker
  {
    if order != [] {
      RemovedIs(order[1..], worker);
      assert order == [order[0]] + order[1..];
      assert order[0] !in Removed(order[1..], worker);
    }
  }

  lemma RemoveInv(s: State, worker: WorkerId)
    requires Inv(s) && worker in s.workers
    ensures var r := Remove(s, worker);
            && Inv(r) && r.workers == s.workers - {worker}
            && (forall t :: t in r.tasks <==> t in s.tasks && !(Running(s, t) && s.tasks[t].worker == worker))
            && (forall t <- r.tasks :: r.tasks[t] == s.tasks[t] && Live(r, t) == Live(s, t))
  {
    EvictIs(s, worker, s.workers[worker].tasks);
    RemovedIs(s.order, worker);
  }

  // ----- scheduling

  lemma RenewInv(s: State, task: Task, reserveTime: int)
    requires Inv(s) && Bound(s, task)
    ensures var r := Renew(s, task, reserveTime);
            && Inv(r) && r.workers == s.workers && r.tasks == s.tasks[task := r.tasks[task]]
            && r.tasks[task].worker == s.tasks[task].worker
            && (r.tasks[task].reserveTime == s.tasks[task].reserveTime || r.tasks[task].reserveTime == reserveTime != 0)
            && r.tasks[task].reserveTime >= s.tasks[task].reserveTime
            && (reserveTime != 0 ==> r.tasks[task].reserveTime >= reserveTime)
            && (Live(r, task) && Running(r, task) ==> Live(s, task) && Running(s, task))
            && forall t <- s.tasks | t != task :: Live(r, t) == Live(s, t)
  {
    var rec := s.tasks[task];
    if Runs(s, rec.worker, task) {
      var r := s.(tasks := s.tasks[task := rec.(reserveTime := Longer(rec.reserveTime, reserveTime))]);
      assert forall t <- s.tasks :: Live(r, t) == Live(s, t);
    } else {
      ReserveInv(s, task, rec.worker, Longer(rec.reserveTime, reserveTime));
    }
  }

  /** The worker a fresh choice puts on the record, if any. */
  function Target(choice: Choice): Option<WorkerId> {
    match choice
    case Refused => None
    case Chosen(w) => Some(w)
    case Nobody => Some(UNDEFINED)
  }

  lemma FreshInv(s: State, task: Task, reserveTime: int, defaultTime: int, choice: Choice)
    requires Inv(s) && !Bound(s, task)
    ensures var r := Schedule(s, task, reserveTime, defaultTime, choice);
            && Inv(r) && r.workers == s.workers
            && (task in r.tasks <==> Target(choice).Some?)
            && (task in r.tasks ==> r.tasks[task].worker == Target(choice).value && Live(r, task))
            && (task in r.tasks ==> r.tasks[task].reserveTime == if reserveTime > 0 then reserveTime else defaultTime)
            && (forall t <- s.tasks | t != task :: t in r.tasks && r.tasks[t] == s.tasks[t] && Live(r, t) == Live(s, t))
            && (forall t <- r.tasks | t != task :: t in s.tasks)
  {
    RepealInv(s, task);
    var r := Repeal(s, task);
    var time := if reserveTime > 0 then reserveTime else defaultTime;
    if Target(choice).Some? {
      ReserveInv(r, task, Target(choice).value, time);
    }
  }

  // ----- every operation keeps the invariant

  lemma DoInv(s: State, op: Op, defaultTime: int)
    requires Inv(s) && Legal(s, op)
    ensures Inv(Do(s, op, defaultTime))
  {
    match op {
      case DoAdd(w, info) => AddInv(s, w, info);
      case DoRemove(w) => if w in s.workers { RemoveInv(s, w); }
      case DoState(w, _) => TouchInv(s, Do(s, op, defaultTime));
      case DoLoad(w, _) => TouchInv(s, Do(s, op, defaultTime));
      case DoPickUp(w, ts) => if w in s.workers { ExecuteAllInv(s, w, ts, defaultTime); } else { NoneExecuted(s, w, ts, defaultTime); }
      case DoLayDown(w, t) => CancelInv(s, w, t);
      case DoSchedule(t, time, choice) =>
        if Bound(s, t) { RenewInv(s, t, time); } else { FreshInv(s, t, time, defaultTime, choice); }
      case DoUnschedule(w, t) => RepealInv(s, t);
      case DoExpire(id) => FireInv(s, id);
    }
  }

  lemma AddInv(s: State, worker: WorkerId, info: Info)
    requires Inv(s) && worker !in s.workers
    ensures var r := Add(s, worker, info);
            && Inv(r) && r.workers.Keys == s.workers.Keys + {worker} && r.tasks == s.tasks && r.armed == s.armed
            && forall w, t :: Runs(r, w, t) == Runs(s, w, t)
  {
    var r := Add(s, worker, info);
    forall w, t ensures Runs(r, w, t) == Runs(s, w, t) {
      assert w == worker ==> !Runs(r, w, t) && !Runs(s, w, t);
    }
    forall t <- r.tasks ensures Live(r, t) || Running(r, t) {
      assert Live(r, t) == Live(s, t) && (Live(s, t) || Running(s, t));
    }
    AddedLists(s, worker, info);
  }

  lemma AddedLists(s: State, worker: WorkerId, info: Info)
    requires ListsOk(s) && worker !in s.workers
    ensures ListsOk(Add(s, worker, info))
  {
    assert worker !in s.order;
  }

  lemma TouchInv(s: State, r: State)
    requires Inv(s) && r == s.(workers := r.workers) && r.workers.Keys == s.workers.Keys
    requires forall w <- s.workers :: r.workers[w].tasks == s.workers[w].tasks
    ensures Inv(r) && (forall w, t :: Runs(r, w, t) == Runs(s, w, t)) && forall t <- s.tasks :: Live(r, t) == Live(s, t)
  {
  }

  lemma {:induction false} NoneExecuted(s: State, worker: WorkerId, ts: seq<Task>, time: int)
    requires worker !in s.workers
    ensures ExecuteAll(s, worker, ts, time) == s
  {
    if ts != [] { NoneExecuted(s, worker, ts[..|ts| - 1], time); }
  }
}
