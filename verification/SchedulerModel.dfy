/** The state of one scheduler and what each of its operations makes of it. Reservation timers are part of the
    state: `armed` holds every timer that has been set and has neither fired nor been cleared. */
module SchedulerModel {
  import opened Options
  import opened Sequences

  type WorkerId = string
  type Task = string
  type TimerId = nat

  datatype Video = Video(encode: seq<string>, decode: seq<string>)
  datatype Capacity = Capacity(isps: seq<string>, regions: seq<string>, video: Option<Video>, algorithms: seq<string>)
  datatype Info = Info(maxLoad: Option<real>, capacity: Capacity)
  datatype Worker = Worker(state: Option<int>, load: real, info: Info, tasks: seq<Task>)
  datatype Record = Record(worker: WorkerId, reserveTime: int, timer: Option<TimerId>)

  /** `order` is the insertion order in which the source's worker table is enumerated. */
  datatype State = State(
    order: seq<WorkerId>,
    workers: map<WorkerId, Worker>,
    tasks: map<Task, Record>,
    armed: map<TimerId, Task>,
    nextTimer: TimerId)

  /** The key under which a record lands when a strategy answers with no worker at all. */
  const UNDEFINED: WorkerId := "undefined"

  function Empty(): State {
    State([], map[], map[], map[], 0)
  }

  predicate Available(w: Worker) {
    && w.info.maxLoad.Some? && w.load < w.info.maxLoad.value
    && (w.state.None? || w.state.value == 2)
  }

  function InitialLoad(info: Info): real {
    if info.maxLoad.Some? && info.maxLoad.value != 0.0 then info.maxLoad.value else 1.0
  }

  // ----- records and timers

  function Disarm(s: State, task: Task): State {
    if task in s.tasks && s.tasks[task].timer.Some? then s.(armed := s.armed - {s.tasks[task].timer.value}) else s
  }

  function Reserve(s: State, task: Task, worker: WorkerId, time: int): State {
    var d := Disarm(s, task);
    d.(tasks := d.tasks[task := Record(worker, time, Some(d.nextTimer))],
       armed := d.armed[d.nextTimer := task],
       nextTimer := d.nextTimer + 1)
  }

  function Repeal(s: State, task: Task): State {
    var d := Disarm(s, task);
    d.(tasks := d.tasks - {task})
  }

  /** A fired timer is no longer armed, and then repeals its task. */
  function Fire(s: State, id: TimerId): State
    requires id in s.armed
  {
    Repeal(s.(armed := s.armed - {id}), s.armed[id])
  }

  // ----- running tasks

  function SetTasks(s: State, worker: WorkerId, ts: seq<Task>): State
    requires worker in s.workers
  {
    s.(workers := s.workers[worker := s.workers[worker].(tasks := ts)])
  }

  predicate Runs(s: State, worker: WorkerId, task: Task) {
    worker in s.workers && task in s.workers[worker].tasks
  }

  /** The running worker takes over the task's record, whose reservation ends. */
  function Claim(s: State, worker: WorkerId, task: Task, defaultTime: int): State {
    if task in s.tasks then
      var d := Disarm(s, task);
      d.(tasks := d.tasks[task := d.tasks[task].(worker := worker)])
    else
      s.(tasks := s.tasks[task := Record(worker, defaultTime, None)])
  }

  function Execute(s: State, worker: WorkerId, task: Task, defaultTime: int): State {
    if worker !in s.workers then s
    else if Runs(s, worker, task) then Claim(s, worker, task, defaultTime)
    else Claim(SetTasks(s, worker, s.workers[worker].tasks + [task]), worker, task, defaultTime)
  }

  function ExecuteAll(s: State, worker: WorkerId, ts: seq<Task>, defaultTime: int): State {
    if ts == [] then s
    else Execute(ExecuteAll(s, worker, ts[..|ts| - 1], defaultTime), worker, ts[|ts| - 1], defaultTime)
  }

  function WithoutFirst(ts: seq<Task>, task: Task): seq<Task>
    requires task in ts
  {
    WithoutAt(ts, IndexOf(ts, task))
  }

  function Cancel(s: State, worker: WorkerId, task: Task): State {
    var running := Runs(s, worker, task);
    var l := if running then SetTasks(s, worker, WithoutFirst(s.workers[worker].tasks, task)) else s;
    if task !in l.tasks then l
    else if running then Reserve(l, task, worker, l.tasks[task].reserveTime)
    else Repeal(l, task)
  }

  // ----- workers

  function Add(s: State, worker: WorkerId, info: Info): State {
    s.(order := if worker in s.workers then s.order else s.order + [worker],
       workers := s.workers[worker := Worker(None, InitialLoad(info), info, [])])
  }

  predicate Held(s: State, worker: WorkerId, task: Task) {
    task in s.tasks && s.tasks[task].worker == worker
  }

  /** The records of the given tasks that name the worker disappear, and their timers with them. */
  function Evict(s: State, worker: WorkerId, ts: seq<Task>): State {
    if ts == [] then s
    else
      var e := Evict(s, worker, ts[..|ts| - 1]);
      if Held(e, worker, ts[|ts| - 1]) then Repeal(e, ts[|ts| - 1]) else e
  }

  function Removed(order: seq<WorkerId>, worker: WorkerId): seq<WorkerId> {
    if order == [] then []
    else if order[0] == worker then Removed(order[1..], worker)
    else [order[0]] + Removed(order[1..], worker)
  }

  function Remove(s: State, worker: WorkerId): State {
    if worker !in s.workers then s
    else
      var e := Evict(s, worker, s.workers[worker].tasks);
      e.(workers := e.workers - {worker}, order := Removed(e.order, worker))
  }

  function LayDown(s: State, worker: WorkerId, task: Task): State {
    if worker in s.workers then Cancel(s, worker, task) else s
  }

  function Unschedule(s: State, worker: WorkerId, task: Task): State {
    if Held(s, worker, task) then Repeal(s, task) else s
  }

  // ----- scheduling

  function Longer(given: int, asked: int): int {
    if asked != 0 && given < asked then asked else given
  }

  /** The task's record names a worker that is still registered. */
  predicate Bound(s: State, task: Task) {
    task in s.tasks && s.tasks[task].worker in s.workers
  }

  function Renew(s: State, task: Task, reserveTime: int): State
    requires Bound(s, task)
  {
    var r := s.tasks[task];
    var time := Longer(r.reserveTime, reserveTime);
    if Runs(s, r.worker, task) then s.(tasks := s.tasks[task := r.(reserveTime := time)])
    else Reserve(s, task, r.worker, time)
  }

  /** The worker on a task's record. */
  function LookUp(s: State, task: Task): Option<WorkerId> {
    if task in s.tasks then Some(s.tasks[task].worker) else None
  }

  /** What the matcher and the strategy made of the candidates: none, a worker, or `undefined`. */
  datatype Choice = Refused | Chosen(worker: WorkerId) | Nobody

  function Schedule(s: State, task: Task, reserveTime: int, defaultTime: int, choice: Choice): State {
    if Bound(s, task) then Renew(s, task, reserveTime)
    else
      var r := Repeal(s, task);
      var time := if reserveTime > 0 then reserveTime else defaultTime;
      match choice
      case Refused => r
      case Chosen(w) => Reserve(r, task, w, time)
      case Nobody => Reserve(r, task, UNDEFINED, time)
  }

  function Candidates(s: State, order: seq<WorkerId>): (cs: seq<WorkerId>)
    requires forall w <- order :: w in s.workers
    ensures forall w :: w in cs <==> w in order && Available(s.workers[w])
  {
    if order == [] then []
    else
      var init := Candidates(s, order[..|order| - 1]);
      var last := order[|order| - 1];
      if Available(s.workers[last]) then init + [last] else init
  }
}
