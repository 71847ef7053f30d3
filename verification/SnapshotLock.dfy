/** The lock around snapshot installation: an asynchronous mutex, the flag isInstallSnapshot, and the timers
    that give up on an installation after 500 ms. */
module SnapshotLock {

  type Call = nat

  /** `ready` are calls whose lock has been granted but whose continuation has not run yet; `timers` counts
      the give-up timers that may still fire, including those of installations that are over. */
  datatype Gate = Gate(
    locked: bool,
    waiting: seq<Call>,
    ready: seq<Call>,
    installing: bool,
    timers: nat,
    called: seq<Call>,
    published: seq<Call>)

  datatype Event = Request(call: Call) | Continue | TimerFires | SnapshotArrives

  function Open(): Gate {
    Gate(false, [], [], false, 0, [], [])
  }

  // ----- the mutex

  function Lock(g: Gate, call: Call): Gate {
    if g.locked then g.(waiting := g.waiting + [call]) else g.(locked := true, ready := g.ready + [call])
  }

  function Unlock(g: Gate): Gate {
    if g.waiting != [] then g.(ready := g.ready + [g.waiting[0]], waiting := g.waiting[1..]) else g.(locked := false)
  }

  // ----- the follower's use of it

  predicate Possible(g: Gate, e: Event) {
    match e
    case Continue => g.ready != []
    case TimerFires => g.timers > 0
    case _ => true
  }

  function React(g: Gate, e: Event): Gate
    requires Possible(g, e)
  {
    match e
    case Request(call) => Lock(g.(called := g.called + [call]), call)
    case Continue =>
      var r := g.(ready := g.ready[1..]);
      if g.installing then Unlock(r)
      else r.(installing := true, timers := g.timers + 1, published := g.published + [g.ready[0]])
    case TimerFires =>
      var r := g.(timers := g.timers - 1);
      if g.installing then Unlock(r.(installing := false)) else r
    case SnapshotArrives =>
      if g.installing then Unlock(g.(installing := false)) else g
  }

  // ----- the discipline

  predicate Disciplined(g: Gate) {
    && |g.ready| <= 1
    && (g.locked <==> ((g.ready != []) != g.installing))
    && !(g.ready != [] && g.installing)
    && (g.waiting != [] ==> g.locked)
    && g.called == g.published + g.ready + g.waiting
    && (g.installing ==> g.timers > 0)
  }

  /** The event runs the unlock at the end of a continuation that found an installation already under way. */
  predicate FallsThrough(g: Gate, e: Event) {
    e.Continue? && g.installing
  }

  /** The event releases the lock, or hands it on. */
  predicate Releases(g: Gate, e: Event) {
    g.installing && (e.Continue? || e.TimerFires? || e.SnapshotArrives?)
  }

  lemma KeepsDiscipline(g: Gate, e: Event)
    requires Disciplined(g) && Possible(g, e)
    ensures Disciplined(React(g, e))
    ensures Releases(g, e) ==> g.locked
    ensures !FallsThrough(g, e)
  {
  }

  /** A request is served at once when the lock is free. */
  lemma FreeMeansServed(g: Gate, call: Call)
    requires Disciplined(g) && !g.locked
    ensures var r := React(React(g, Request(call)), Continue); r.published == g.published + [call] && r.installing
  {
  }

  /** An installation ends with the snapshot or with its timer, whichever comes first: then the call that has waited
      longest is let in, or the lock is free. A timer that is left over changes nothing else. */
  lemma InstallationEnds(g: Gate, e: Event)
    requires Disciplined(g) && Possible(g, e) && (e.TimerFires? || e.SnapshotArrives?)
    ensures var r := React(g, e);
            && !r.installing && r.published == g.published && r.called == g.called
            && r.timers == g.timers - (if e.TimerFires? then 1 else 0)
            && (g.installing && g.waiting != [] ==> r.locked && r.ready == [g.waiting[0]] && r.waiting == g.waiting[1..])
            && (g.installing && g.waiting == [] ==> !r.locked && r.ready == [] && r.waiting == [])
            && (!g.installing ==> r.locked == g.locked && r.ready == g.ready && r.waiting == g.waiting)
  {
  }

  /** Nobody waits for ever: while calls wait there is always a continuation to run or a timer that will fire, and these
      two get the first of them published. */
  lemma WaitersAreServed(g: Gate)
    requires Disciplined(g) && g.waiting != []
    ensures g.ready != [] || g.timers > 0
    ensures g.ready == [] ==>
              var r := React(React(g, TimerFires), Continue);
              r.published == g.published + [g.waiting[0]] && r.waiting == g.waiting[1..] && r.installing
    ensures g.ready != [] ==>
              var r := React(g, Continue);
              r.published == g.published + [g.ready[0]] && r.ready == [] && r.waiting == g.waiting && r.installing
  {
  }

  ghost predicate Run(b: seq<Gate>, es: seq<Event>) {
    && |b| == |es| + 1
    && b[0] == Open()
    && forall i :: 0 <= i < |es| ==> Possible(b[i], es[i]) && b[i + 1] == React(b[i], es[i])
  }

  lemma {:induction false} AlwaysDisciplined(b: seq<Gate>, es: seq<Event>, i: nat)
    requires Run(b, es) && i < |b|
    ensures Disciplined(b[i])
  {
    if i > 0 {
      AlwaysDisciplined(b, es, i - 1);
      KeepsDiscipline(b[i - 1], es[i - 1]);
    }
  }

  /** At every moment the lock is held for exactly one reason, it is never released while free, the fall-through is
      dead, and the requests published are the calls in the order they were made, however the timers fire. */
  lemma LockDiscipline(b: seq<Gate>, es: seq<Event>, i: nat)
    requires Run(b, es) && i < |es|
    ensures Disciplined(b[i]) && b[i].published <= b[i].called
    ensures Releases(b[i], es[i]) ==> b[i].locked
    ensures !FallsThrough(b[i], es[i])
  {
    AlwaysDisciplined(b, es, i);
    KeepsDiscipline(b[i], es[i]);
    PublishedInOrder(b[i]);
  }

  lemma PublishedInOrder(g: Gate)
    requires Disciplined(g)
    ensures g.published <= g.called
  {
  }

  // ----- in place

  class Mutex {
    var locked: bool
    var waiting: seq<Call>
    var ready: seq<Call>

    constructor ()
      ensures !locked && waiting == [] && ready == []
    {
      locked, waiting, ready := false, [], [];
    }

    method Acquire(call: Call)
      modifies this
      ensures locked
      ensures old(locked) ==> waiting == old(waiting) + [call] && ready == old(ready)
      ensures !old(locked) ==> ready == old(ready) + [call] && waiting == old(waiting)
    {
      if !locked {
        locked := true;
        ready := ready + [call];
      } else {
        waiting := waiting + [call];
      }
    }

    method Release()
      modifies this
      ensures old(waiting) != [] ==>
                locked == old(locked) && ready == old(ready) + [old(waiting)[0]] && waiting == old(waiting)[1..]
      ensures old(waiting) == [] ==> !locked && ready == old(ready) && waiting == []
    {
      if |waiting| > 0 {
        var next := waiting[0];
        waiting := waiting[1..];
        ready := ready + [next];
      } else {
        locked := false;
      }
    }
  }

  class Installer {
    const mutex: Mutex
    var installing: bool
    var timers: nat
    var published: seq<Call>
    ghost var called: seq<Call>

    ghost function Now(): Gate
      reads this, mutex
    {
      Gate(mutex.locked, mutex.waiting, mutex.ready, installing, timers, called, published)
    }

    constructor ()
      ensures Now() == Open() && fresh(mutex)
    {
      mutex := new Mutex();
      installing, timers, published, called := false, 0, [], [];
    }

    method InstallSnapshot(call: Call)
      modifies this, mutex
      ensures Now() == React(old(Now()), Request(call))
    {
      called := called + [call];
      mutex.Acquire(call);
    }

    method OnGranted()
      requires mutex.ready != []
      modifies this, mutex
      ensures Now() == React(old(Now()), Continue)
    {
      var call := mutex.ready[0];
      mutex.ready := mutex.ready[1..];
      if !installing {
        installing := true;
        published := published + [call];
        timers := timers + 1;
        return;
      }
      mutex.Release();
    }

    method OnTimer()
      requires timers > 0
      modifies this, mutex
      ensures Now() == React(old(Now()), TimerFires)
    {
      timers := timers - 1;
      if installing {
        installing := false;
        mutex.Release();
      }
    }

    method OnSnapshot()
      modifies this, mutex
      ensures Now() == React(old(Now()), SnapshotArrives)
    {
      if installing {
        installing := false;
        mutex.Release();
      }
    }
  }
}
