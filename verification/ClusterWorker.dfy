/** A cluster worker: how it joins, loses and rejoins its manager, and what it tells the manager about its tasks. */
module ClusterWorker {
  import opened Sequences
  import opened SchedulerModel

  datatype Registration = Unregistered | Registered | Recovering
  datatype ManagerState = Initializing | InService

  /** What the worker sends to its manager, in order. Each attempt to join has its own number. */
  datatype Message = Join(attempt: nat) | PickUp(tasks: seq<Task>) | LaidDown(task: Task)

  /** `waiting` says that the latest join call has neither returned nor timed out. */
  datatype Member = Member(state: Registration, tasks: seq<Task>, attempt: nat, waiting: bool)

  datatype Outcome = Outcome(worker: Member, sent: seq<Message>)

  function NewWorker(): Member {
    Member(Unregistered, [], 0, false)
  }

  function AddTask(w: Member, task: Task): Outcome {
    if task in w.tasks then Outcome(w, [])
    else Outcome(w.(tasks := w.tasks + [task]), if w.state == Registered then [PickUp([task])] else [])
  }

  function RemoveTask(w: Member, task: Task): Outcome {
    if task !in w.tasks then Outcome(w, [])
    else Outcome(w.(tasks := WithoutFirst(w.tasks, task)), if w.state == Registered then [LaidDown(task)] else [])
  }

  function CallJoin(w: Member): Outcome {
    Outcome(w.(attempt := w.attempt + 1, waiting := true), [Join(w.attempt + 1)])
  }

  /** Too many missed keep-alives, or a manager that asks who this is. */
  function LoseContact(w: Member): Outcome {
    CallJoin(w.(state := Recovering))
  }

  /** The join succeeded. A rejoining worker reports its tasks to a manager that is still initializing,
      and gives them up to one that is in service; a first join reports nothing. */
  function JoinedWith(w: Member, result: ManagerState): Outcome {
    var r := w.(state := Registered, waiting := false);
    if w.state != Recovering then Outcome(r, [])
    else if result == InService then Outcome(r.(tasks := []), [])
    else Outcome(r, if w.tasks == [] then [] else [PickUp(w.tasks)])
  }

  function JoinFailed(w: Member): Member {
    w.(waiting := false)
  }

  class ClusterWorker {
    var state: Registration
    var tasks: seq<Task>
    var attempt: nat
    var waiting: bool

    function Now(): Member
      reads this
    {
      Member(state, tasks, attempt, waiting)
    }

    constructor ()
      ensures Now() == NewWorker()
    {
      state, tasks, attempt, waiting := Unregistered, [], 0, false;
    }

    method DoAddTask(task: Task) returns (sent: seq<Message>)
      modifies this
      ensures Outcome(Now(), sent) == AddTask(old(Now()), task)
    {
      sent := [];
      if task !in tasks {
        tasks := tasks + [task];
        if state == Registered {
          sent := [PickUp([task])];
        }
      }
    }

    method DoRemoveTask(task: Task) returns (sent: seq<Message>)
      modifies this
      ensures Outcome(Now(), sent) == RemoveTask(old(Now()), task)
    {
      sent := [];
      if task in tasks {
        var i := IndexOf(tasks, task);
        tasks := WithoutAt(tasks, i);
        if state == Registered {
          sent := [LaidDown(task)];
        }
      }
    }

    method TryJoining() returns (sent: seq<Message>)
      modifies this
      ensures Outcome(Now(), sent) == CallJoin(old(Now()))
    {
      attempt := attempt + 1;
      waiting := true;
      sent := [Join(attempt)];
    }

    method TryRecovery() returns (sent: seq<Message>)
      requires state != Recovering
      modifies this
      ensures Outcome(Now(), sent) == LoseContact(old(Now()))
    {
      state := Recovering;
      sent := TryJoining();
    }

    method OnJoined(result: ManagerState) returns (sent: seq<Message>)
      modifies this
      ensures Outcome(Now(), sent) == JoinedWith(old(Now()), result)
      ensures old(state) == Recovering ==>
                && (result == Initializing ==> tasks == old(tasks) && sent == if tasks == [] then [] else [PickUp(tasks)])
                && (result == InService ==> tasks == [] && sent == [])
    {
      var rejoining := state == Recovering;
      state, waiting := Registered, false;
      sent := [];
      if rejoining {
        if result == Initializing {
          if |tasks| > 0 {
            sent := [PickUp(tasks)];
          }
        } else {
          tasks := [];
        }
      }
    }
  }
}
