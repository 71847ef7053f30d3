/** The scheduler itself: tables updated in place, timers armed and cleared, each operation proved to do what
    SchedulerModel says. */
module Scheduler {
  import opened Options
  import opened Sequences
  import opened SchedulerModel
  import SchedulerRuns
  import Matcher
  import Strategy

  datatype Answer =
    | Scheduled(worker: WorkerId)
    | NoWorkerAvailable
    | NoWorkerMatches
    | Failed // the strategy answered with no worker, and using that answer throws

  function ChoiceOf(answer: Answer): Choice {
    match answer
    case Scheduled(w) => Chosen(w)
    case Failed => Nobody
    case _ => Refused
  }

  /** Why a fresh task got this answer: nobody is available, nobody available matches, or the strategy's pick
      among the available workers that match; least-used and most-used picks are true extremes. */
  ghost predicate Explains(purpose: Matcher.Purpose, kind: Strategy.Kind, s: State, preference: Matcher.Preference, answer: Answer)
    requires forall w <- s.order :: w in s.workers
  {
    var cs := Candidates(s, s.order);
    var ms := Matcher.Matching(purpose, s.workers, preference, cs);
    && Strategy.Listed(s.workers, ms)
    && match answer
       case NoWorkerAvailable => cs == []
       case NoWorkerMatches => cs != [] && ms == []
       case Scheduled(w) =>
         && w in ms && w in cs && Available(s.workers[w])
         && (kind == Strategy.LeastUsed ==> Strategy.IsLeastUsed(s.workers, ms, Some(w)))
         && (kind == Strategy.MostUsed ==> Strategy.IsMostUsed(s.workers, ms, Some(w)))
       case Failed =>
         && ms != []
         && (|| (kind == Strategy.LeastUsed && forall w <- ms :: s.workers[w].load >= 1.0)
             || (kind == Strategy.MostUsed && forall w <- ms :: s.workers[w].load < 0.0))
  }

  /** A fresh request goes to the strategy exactly when some available worker matches; then the answer is the
      strategy's pick among those, and otherwise the strategy remembers nothing of it. */
  ghost predicate Consults(purpose: Matcher.Purpose, kind: Strategy.Kind, s: State, preference: Matcher.Preference,
                           weights: map<WorkerId, int>, dice: nat, answer: Answer, was: Strategy.Memory, now: Strategy.Memory)
    requires forall w <- s.order :: w in s.workers
  {
    var ms := Matcher.Matching(purpose, s.workers, preference, Candidates(s, s.order));
    if ms == [] then (answer.NoWorkerAvailable? || answer.NoWorkerMatches?) && now == was
    else
      && (answer.Scheduled? || answer.Failed?)
      && Strategy.Listed(s.workers, ms) && (forall w <- ms :: w in weights)
      && Strategy.Picks(kind, was, s.workers, ms, weights, dice, if answer.Scheduled? then Some(answer.worker) else None, now)
  }

  class Scheduler {
    const purpose: Matcher.Purpose
    const scheduleReserveTime: int
    const strategy: Strategy.Strategy
    var order: seq<WorkerId>
    var workers: map<WorkerId, Worker>
    var tasks: map<Task, Record>
    var armed: map<TimerId, Task>
    var nextTimer: TimerId

    function Now(): State
      reads this
    {
      State(order, workers, tasks, armed, nextTimer)
    }

    ghost predicate Valid()
      reads this, strategy, strategy.robin
    {
      strategy.Valid() && SchedulerRuns.Inv(Now())
    }

    constructor (purpose: Matcher.Purpose, kind: Strategy.Kind, scheduleReserveTime: int)
      ensures Valid() && Now() == Empty() && fresh(strategy) && fresh(strategy.robin)
      ensures this.purpose == purpose && this.scheduleReserveTime == scheduleReserveTime && strategy.kind == kind
    {
      this.purpose := purpose;
      this.scheduleReserveTime := scheduleReserveTime;
      strategy := new Strategy.Strategy(kind);
      order, workers, tasks, armed, nextTimer := [], map[], map[], map[], 0;
    }

    // ----- timers

    method ClearTimer(task: Task)
      modifies this`armed
      ensures Now() == Disarm(old(Now()), task)
    {
      if task in tasks && tasks[task].timer.Some? {
        armed := armed - {tasks[task].timer.value};
      }
    }

    method ReserveWorkerForTask(task: Task, worker: WorkerId, time: int)
      modifies this
      ensures Now() == Reserve(old(Now()), task, worker, time)
    {
      if task in tasks {
        ClearTimer(task);
      }
      var timer := nextTimer;
      nextTimer := nextTimer + 1;
      armed := armed[timer := task];
      tasks := tasks[task := Record(worker, time, Some(timer))];
    }

    method RepealTask(task: Task)
      modifies this
      ensures Now() == Repeal(old(Now()), task)
    {
      if task in tasks {
        ClearTimer(task);
        tasks := tasks - {task};
      } else {
        assert tasks - {task} == tasks;
      }
    }

    method OnTimer(timer: TimerId)
      requires Valid() && timer in armed
      modifies this
      ensures Valid() && Now() == Fire(old(Now()), timer)
    {
      SchedulerRuns.FireInv(Now(), timer);
      var task := armed[timer];
      armed := armed - {timer};
      RepealTask(task);
    }

    // ----- running tasks

    method ExecuteTask(worker: WorkerId, task: Task)
      modifies this
      ensures Now() == Execute(old(Now()), worker, task, scheduleReserveTime)
    {
      if worker in workers {
        if task !in workers[worker].tasks {
          workers := workers[worker := workers[worker].(tasks := workers[worker].tasks + [task])];
        }
        if task in tasks {
          ClearTimer(task);
          if tasks[task].worker != worker {
            tasks := tasks[task := tasks[task].(worker := worker)];
          }
          assert tasks == tasks[task := tasks[task]];
        } else {
          tasks := tasks[task := Record(worker, scheduleReserveTime, None)];
        }
      }
    }

    method CancelExecution(worker: WorkerId, task: Task)
      modifies this
      ensures Now() == Cancel(old(Now()), worker, task)
    {
      var needToReserve := false;
      if worker in workers && task in workers[worker].tasks {
        workers := workers[worker := workers[worker].(tasks := WithoutFirst(workers[worker].tasks, task))];
        needToReserve := true;
      }
      if task in tasks {
        if needToReserve {
          ReserveWorkerForTask(task, worker, tasks[task].reserveTime);
        } else {
          RepealTask(task);
        }
      }
    }

    method PickUpTasks(worker: WorkerId, ts: seq<Task>)
      requires Valid()
      modifies this
      ensures Valid() && Now() == ExecuteAll(old(Now()), worker, ts, scheduleReserveTime)
    {
      ghost var was := Now();
      if worker in workers {
        SchedulerRuns.ExecuteAllInv(was, worker, ts, scheduleReserveTime);
        for i := 0 to |ts|
          invariant Now() == ExecuteAll(was, worker, ts[..i], scheduleReserveTime)
        {
          assert ts[..i + 1][..i] == ts[..i];
          ExecuteTask(worker, ts[i]);
        }
        assert ts[..|ts|] == ts;
      } else {
        SchedulerRuns.NoneExecuted(was, worker, ts, scheduleReserveTime);
      }
    }

    method LayDownTask(worker: WorkerId, task: Task)
      requires Valid()
      modifies this
      ensures Valid() && Now() == LayDown(old(Now()), worker, task)
    {
      SchedulerRuns.CancelInv(Now(), worker, task);
      if worker in workers {
        CancelExecution(worker, task);
      }
    }

    // ----- workers

    method AddWorker(worker: WorkerId, info: Info)
      requires Valid()
      modifies this
      ensures Now() == Add(old(Now()), worker, info)
      ensures old(worker !in workers) ==> Valid()
    {
      if worker !in workers {
        SchedulerRuns.AddInv(Now(), worker, info);
        order := order + [worker];
      }
      workers := workers[worker := Worker(None, InitialLoad(info), info, [])];
    }

    method RemoveWorker(worker: WorkerId)
      requires Valid()
      modifies this
      ensures Valid() && Now() == Remove(old(Now()), worker)
    {
      if worker in workers {
        ghost var was := Now();
        SchedulerRuns.RemoveInv(was, worker);
        var ts := workers[worker].tasks;
        for i := 0 to |ts|
          invariant Now() == Evict(was, worker, ts[..i])
        {
          assert ts[..i + 1][..i] == ts[..i];
          if ts[i] in tasks && tasks[ts[i]].worker == worker {
            RepealTask(ts[i]);
          }
        }
        assert ts[..|ts|] == ts;
        workers := workers - {worker};
        order := Removed(order, worker);
      }
    }

    method UpdateState(worker: WorkerId, state: int)
      requires Valid()
      modifies this
      ensures Valid() && Now() == SchedulerRuns.Do(old(Now()), SchedulerRuns.DoState(worker, state), scheduleReserveTime)
    {
      SchedulerRuns.DoInv(Now(), SchedulerRuns.DoState(worker, state), scheduleReserveTime);
      if worker in workers {
        workers := workers[worker := workers[worker].(state := Some(state))];
      }
    }

    method UpdateLoad(worker: WorkerId, load: real)
      requires Valid()
      modifies this
      ensures Valid() && Now() == SchedulerRuns.Do(old(Now()), SchedulerRuns.DoLoad(worker, load), scheduleReserveTime)
    {
      SchedulerRuns.DoInv(Now(), SchedulerRuns.DoLoad(worker, load), scheduleReserveTime);
      if worker in workers {
        workers := workers[worker := workers[worker].(load := load)];
      }
    }

    // ----- scheduling

    method AvailableWorkers() returns (candidates: seq<WorkerId>)
      requires Valid()
      ensures candidates == Candidates(Now(), order)
    {
      candidates := [];
      for i := 0 to |order|
        invariant candidates == Candidates(Now(), order[..i])
      {
        assert order[..i + 1][..i] == order[..i];
        if Available(workers[order[i]]) {
          candidates := candidates + [order[i]];
        }
      }
      assert order[..|order|] == order;
    }

    /** Filter the available workers by preference and let the strategy pick. */
    method Choose(preference: Matcher.Preference, weights: map<WorkerId, int>, dice: nat) returns (answer: Answer)
      requires Valid() && forall w <- workers :: w in weights
      modifies strategy, strategy.robin
      ensures strategy.Valid()
      ensures Explains(purpose, strategy.kind, Now(), preference, answer)
      ensures Consults(purpose, strategy.kind, Now(), preference, weights, dice, answer,
                       old(strategy.Remembered()), strategy.Remembered())
    {
      var candidates := AvailableWorkers();
      if candidates == [] {
        return NoWorkerAvailable;
      }
      CandidatesDistinct(Now(), order);
      Matcher.MatchDistinct(purpose, workers, preference, candidates);
      Matcher.MatchIsSound(purpose, workers, preference, candidates);
      var matched := Matcher.Match(purpose, workers, preference, candidates);
      if matched == [] {
        return NoWorkerMatches;
      }
      var found := strategy.Allocate(workers, matched, weights, dice);
      answer := if found.Some? then Scheduled(found.value) else Failed;
    }

    /** The second half of a fresh request: put the chosen worker on record. */
    method Settle(task: Task, reserveTime: int, answer: Answer)
      requires Valid() && !Bound(Now(), task)
      modifies this
      ensures Valid() && Now() == Schedule(old(Now()), task, reserveTime, scheduleReserveTime, ChoiceOf(answer))
      ensures answer.Scheduled? ==>
                && LookUp(Now(), task) == Some(answer.worker) && SchedulerRuns.Live(Now(), task)
                && tasks[task].reserveTime == if reserveTime > 0 then reserveTime else scheduleReserveTime
    {
      SchedulerRuns.FreshInv(Now(), task, reserveTime, scheduleReserveTime, ChoiceOf(answer));
      RepealTask(task);
      var time := if reserveTime > 0 then reserveTime else scheduleReserveTime;
      if answer.Scheduled? {
        ReserveWorkerForTask(task, answer.worker, time);
      } else if answer.Failed? {
        ReserveWorkerForTask(task, UNDEFINED, time);
      }
    }

    /** A request for a task already bound to a registered worker: keep the longer reservation. */
    method RenewTask(task: Task, reserveTime: int)
      requires Valid() && Bound(Now(), task)
      modifies this
      ensures Valid() && Now() == Renew(old(Now()), task, reserveTime)
      ensures LookUp(Now(), task) == LookUp(old(Now()), task)
      ensures tasks[task].reserveTime ==
              if reserveTime > old(tasks)[task].reserveTime && reserveTime != 0 then reserveTime else old(tasks)[task].reserveTime
    {
      SchedulerRuns.RenewInv(Now(), task, reserveTime);
      var r := tasks[task];
      var time := if reserveTime != 0 && r.reserveTime < reserveTime then reserveTime else r.reserveTime;
      if task in workers[r.worker].tasks {
        tasks := tasks[task := r.(reserveTime := time)];
      } else {
        ReserveWorkerForTask(task, r.worker, time);
      }
    }

    /** A bound task goes to its worker again; any other task to an available worker that matches the preference. */
    method ScheduleTask(task: Task, preference: Matcher.Preference, reserveTime: int, weights: map<WorkerId, int>, dice: nat)
        returns (answer: Answer)
      requires Valid() && forall w <- workers :: w in weights
      modifies this, strategy, strategy.robin
      ensures Valid() && Now() == Schedule(old(Now()), task, reserveTime, scheduleReserveTime, ChoiceOf(answer))
      ensures answer.Scheduled? ==>
                && LookUp(Now(), task) == Some(answer.worker)
                && (reserveTime > 0 ==> tasks[task].reserveTime >= reserveTime)
                && (!old(Bound(Now(), task)) ==>
                      tasks[task].reserveTime == if reserveTime > 0 then reserveTime else scheduleReserveTime)
      ensures SchedulerRuns.Legal(old(Now()), SchedulerRuns.DoSchedule(task, reserveTime, ChoiceOf(answer)))
      ensures old(Bound(Now(), task)) ==>
                answer == Scheduled(old(tasks[task].worker)) && strategy.Remembered() == old(strategy.Remembered())
      ensures !old(Bound(Now(), task)) ==>
                && Explains(purpose, strategy.kind, old(Now()), preference, answer)
                && Consults(purpose, strategy.kind, old(Now()), preference, weights, dice, answer,
                            old(strategy.Remembered()), strategy.Remembered())
    {
      if task in tasks && tasks[task].worker in workers {
        answer := Scheduled(tasks[task].worker);
        RenewTask(task, reserveTime);
      } else {
        answer := Choose(preference, weights, dice);
        Settle(task, reserveTime, answer);
      }
    }

    method UnscheduleTask(worker: WorkerId, task: Task)
      requires Valid()
      modifies this
      ensures Valid() && Now() == Unschedule(old(Now()), worker, task)
    {
      SchedulerRuns.RepealInv(Now(), task);
      if task in tasks && tasks[task].worker == worker {
        RepealTask(task);
      }
    }

    method GetScheduled(task: Task) returns (worker: Option<WorkerId>)
      ensures worker == LookUp(Now(), task)
    {
      worker := if task in tasks then Some(tasks[task].worker) else None;
    }
  }

  /** The candidates keep the order of the table. */
  lemma {:induction false} CandidatesInOrder(s: State, order: seq<WorkerId>)
    requires forall w <- order :: w in s.workers
    ensures InOrderOf(Candidates(s, order), order)
  {
    if order != [] {
      var init, last := order[..|order| - 1], order[|order| - 1];
      assert order == init + [last];
      CandidatesInOrder(s, init);
      OrderGrows(Candidates(s, init), init, last);
    }
  }

  lemma {:induction false} CandidatesDistinct(s: State, order: seq<WorkerId>)
    requires Distinct(order) && forall w <- order :: w in s.workers
    ensures Distinct(Candidates(s, order))
  {
    if order != [] {
      var init, last := order[..|order| - 1], order[|order| - 1];
      CandidatesDistinct(s, init);
      assert last !in init;
    }
  }

  /** With loads that are never negative and limits of at most 1, a scheduling request that finds a matching
      available worker is never answered with a failure. */
  lemma NeverFails(purpose: Matcher.Purpose, kind: Strategy.Kind, s: State, preference: Matcher.Preference)
    requires forall w <- s.order :: w in s.workers
    requires forall w <- s.workers ::
               s.workers[w].load >= 0.0 && (s.workers[w].info.maxLoad.Some? ==> s.workers[w].info.maxLoad.value <= 1.0)
    ensures !Explains(purpose, kind, s, preference, Failed)
  {
    var cs := Candidates(s, s.order);
    var ms := Matcher.Matching(purpose, s.workers, preference, cs);
    Matcher.MatchIsSound(purpose, s.workers, preference, cs);
    if ms != [] {
      assert ms[0] in cs && Available(s.workers[ms[0]]);
    }
  }
}
