/** The scheduling strategies: each remembers what it needs and picks one of the candidates. */
module Strategy {
  import opened Options
  import opened Sequences
  import opened SchedulerModel
  import WeightRobin

  datatype Kind = LeastUsed | MostUsed | LastUsed | RoundRobin | RandomlyPick | WeightedRobin

  predicate Listed(ws: map<WorkerId, Worker>, ids: seq<WorkerId>) {
    forall id <- ids :: id in ws
  }

  /** The first candidate of least load, provided that load is below 1. */
  ghost predicate IsLeastUsed(ws: map<WorkerId, Worker>, ids: seq<WorkerId>, found: Option<WorkerId>)
    requires Listed(ws, ids)
  {
    match found
    case None => forall id <- ids :: ws[id].load >= 1.0
    case Some(f) =>
      && f in ws && ws[f].load < 1.0
      && (forall j :: 0 <= j < |ids| ==> ws[f].load <= ws[ids[j]].load)
      && (exists k :: 0 <= k < |ids| && ids[k] == f && (forall j :: 0 <= j < k ==> ws[f].load < ws[ids[j]].load))
  }

  /** The last candidate of greatest load, provided that load is not negative. */
  ghost predicate IsMostUsed(ws: map<WorkerId, Worker>, ids: seq<WorkerId>, found: Option<WorkerId>)
    requires Listed(ws, ids)
  {
    match found
    case None => forall id <- ids :: ws[id].load < 0.0
    case Some(f) =>
      && f in ws && ws[f].load >= 0.0
      && (forall j :: 0 <= j < |ids| ==> ws[f].load >= ws[ids[j]].load)
      && (exists k :: 0 <= k < |ids| && ids[k] == f && (forall j :: k < j < |ids| ==> ws[f].load > ws[ids[j]].load))
  }

  method LeastUsedOf(ws: map<WorkerId, Worker>, ids: seq<WorkerId>) returns (found: Option<WorkerId>)
    requires Listed(ws, ids)
    ensures IsLeastUsed(ws, ids, found)
  {
    var least := 1.0;
    found := None;
    ghost var k := 0;
    for i := 0 to |ids|
      invariant found.None? ==> least == 1.0
      invariant found.Some? ==> 0 <= k < i && ids[k] == found.value && ws[ids[k]].load == least < 1.0
      invariant forall j :: 0 <= j < i ==> least <= ws[ids[j]].load
      invariant found.Some? ==> forall j :: 0 <= j < k ==> least < ws[ids[j]].load
    {
      if ws[ids[i]].load < least {
        least := ws[ids[i]].load;
        found := Some(ids[i]);
        k := i;
      }
    }
  }

  method MostUsedOf(ws: map<WorkerId, Worker>, ids: seq<WorkerId>) returns (found: Option<WorkerId>)
    requires Listed(ws, ids)
    ensures IsMostUsed(ws, ids, found)
  {
    var most := 0.0;
    found := None;
    ghost var k := 0;
    for i := 0 to |ids|
      invariant found.None? ==> most == 0.0 && forall j :: 0 <= j < i ==> ws[ids[j]].load < 0.0
      invariant found.Some? ==> 0 <= k < i && ids[k] == found.value && ws[ids[k]].load == most >= 0.0
      invariant forall j :: 0 <= j < i ==> ws[ids[j]].load <= most
      invariant found.Some? ==> forall j :: k < j < i ==> ws[ids[j]].load < most
    {
      if ws[ids[i]].load >= most {
        most := ws[ids[i]].load;
        found := Some(ids[i]);
        k := i;
      }
    }
  }

  // ----- taking turns

  function NextPosition(p: nat, n: nat): nat {
    if p + 1 == n then 0 else p + 1
  }

  /** The candidate after the latest one, wrapping round; the first if the latest is not a candidate. */
  function Following(latest: Option<WorkerId>, ids: seq<WorkerId>): (id: WorkerId)
    requires ids != []
    ensures id in ids
  {
    if latest.Some? && latest.value in ids
    then ids[NextPosition(IndexOf(ids, latest.value), |ids|)]
    else ids[0]
  }

  /** The k-th of consecutive round-robin picks from unchanged candidates. */
  function Turn(latest: Option<WorkerId>, ids: seq<WorkerId>, k: nat): (id: WorkerId)
    requires ids != []
    ensures id in ids
  {
    if k == 0 then Following(latest, ids) else Following(Some(Turn(latest, ids, k - 1)), ids)
  }

  lemma OnePosition(ids: seq<WorkerId>, p: nat)
    requires Distinct(ids) && p < |ids|
    ensures ids[p] in ids && IndexOf(ids, ids[p]) == p
  {
  }

  lemma NextTurn(latest: Option<WorkerId>, ids: seq<WorkerId>, k: nat, q: nat)
    requires Distinct(ids) && q < |ids| && Turn(latest, ids, k) == ids[q]
    ensures Turn(latest, ids, k + 1) == ids[NextPosition(q, |ids|)]
  {
    OnePosition(ids, q);
  }

  /** The position k places on from p, wrapping round once. */
  function Ahead(p: nat, k: nat, n: nat): (q: nat)
    requires p < n && k < n
    ensures q < n
  {
    if p + k < n then p + k else p + k - n
  }

  function TurnPosition(p: nat, k: nat, n: nat): (q: nat)
    requires p < n
    ensures q < n
  {
    if k == 0 then p else NextPosition(TurnPosition(p, k - 1, n), n)
  }

  lemma {:induction false} TurnPositionIs(p: nat, k: nat, n: nat)
    requires p < n && k < n
    ensures TurnPosition(p, k, n) == Ahead(p, k, n)
  {
    if k > 0 {
      TurnPositionIs(p, k - 1, n);
    }
  }

  lemma {:induction false} TurnIs(latest: Option<WorkerId>, ids: seq<WorkerId>, p: nat, k: nat)
    requires Distinct(ids) && p < |ids| && Turn(latest, ids, 0) == ids[p]
    ensures Turn(latest, ids, k) == ids[TurnPosition(p, k, |ids|)]
  {
    if k > 0 {
      TurnIs(latest, ids, p, k - 1);
      NextTurn(latest, ids, k - 1, TurnPosition(p, k - 1, |ids|));
    }
  }

  /** As many consecutive round-robin picks as there are candidates visit each of them exactly once. */
  lemma RoundRobinVisitsAll(latest: Option<WorkerId>, ids: seq<WorkerId>, id: WorkerId) returns (k: nat)
    requires Distinct(ids) && id in ids
    ensures k < |ids| && Turn(latest, ids, k) == id
    ensures forall j :: 0 <= j < |ids| && Turn(latest, ids, j) == id ==> j == k
  {
    var n, p, t := |ids|, IndexOf(ids, Following(latest, ids)), IndexOf(ids, id);
    k := if t >= p then t - p else t + n - p;
    TurnAhead(latest, ids, p, k);
    forall j | 0 <= j < n && Turn(latest, ids, j) == id ensures j == k {
      TurnAhead(latest, ids, p, j);
      assert ids[Ahead(p, j, n)] == ids[t];
    }
  }

  lemma TurnAhead(latest: Option<WorkerId>, ids: seq<WorkerId>, p: nat, k: nat)
    requires Distinct(ids) && p < |ids| && k < |ids| && Turn(latest, ids, 0) == ids[p]
    ensures Turn(latest, ids, k) == ids[Ahead(p, k, |ids|)]
  {
    TurnIs(latest, ids, p, k);
    TurnPositionIs(p, k, |ids|);
  }

  /** The turn goes to the next candidate in the list, and from the last to the first. */
  lemma NextIsNext(ids: seq<WorkerId>, p: nat)
    requires Distinct(ids) && p < |ids|
    ensures Following(Some(ids[p]), ids) == if p + 1 < |ids| then ids[p + 1] else ids[0]
  {
    OnePosition(ids, p);
  }

  /** From a worker that is not a candidate, or at first, the turns go through the candidates as they are listed. */
  lemma TurnsInOrder(latest: Option<WorkerId>, ids: seq<WorkerId>, k: nat)
    requires Distinct(ids) && k < |ids| && (latest.None? || latest.value !in ids)
    ensures Turn(latest, ids, k) == ids[k]
  {
    TurnAhead(latest, ids, 0, k);
  }

  // ----- keeping to one

  /** What last-used answers to one list of candidates after another. */
  function KeptThrough(last: Option<WorkerId>, lists: seq<seq<WorkerId>>): Option<WorkerId>
    requires forall i :: 0 <= i < |lists| ==> lists[i] != []
  {
    if lists == [] then last else Kept(KeptThrough(last, lists[..|lists| - 1]), lists[|lists| - 1])
  }

  /** Last-used stays with a worker for as long as it is a candidate, and goes to the first candidate when it is not. */
  lemma {:induction false} LastUsedStays(last: Option<WorkerId>, lists: seq<seq<WorkerId>>, w: WorkerId)
    requires lists != [] && forall i :: 0 <= i < |lists| ==> lists[i] != [] && w in lists[i]
    requires last == Some(w) || ((last.None? || last.value !in lists[0]) && w == lists[0][0])
    ensures KeptThrough(last, lists) == Some(w)
  {
    var init, ids := lists[..|lists| - 1], lists[|lists| - 1];
    if init == [] {
      assert KeptThrough(last, init) == last && ids == lists[0];
    } else {
      assert init[0] == lists[0];
      LastUsedStays(last, init, w);
    }
  }

  // ----- the strategy objects

  /** What a strategy remembers from one request to the next. */
  datatype Memory = Memory(lastUsed: Option<WorkerId>, latestUsed: Option<WorkerId>, servers: seq<WeightRobin.Server>)

  /** The strategy's answer to one request, and what it remembers of it. */
  ghost predicate Picks(kind: Kind, was: Memory, ws: map<WorkerId, Worker>, ids: seq<WorkerId>, weights: map<WorkerId, int>,
                        dice: nat, found: Option<WorkerId>, now: Memory)
    requires ids != [] && Listed(ws, ids) && forall id <- ids :: id in weights
  {
    match kind
    case LeastUsed => IsLeastUsed(ws, ids, found) && now == was
    case MostUsed => IsMostUsed(ws, ids, found) && now == was
    case LastUsed => found == Kept(was.lastUsed, ids) && now == was.(lastUsed := found)
    case RoundRobin => found == Some(Following(was.latestUsed, ids)) && now == was.(latestUsed := found)
    case RandomlyPick => found == Some(ids[dice % |ids|]) && now == was
    case WeightedRobin =>
      var r := WeightRobin.Refresh(was.servers, ids, weights);
      r != [] && found == Some(r[WeightRobin.Winner(r)].name) && now == was.(servers := WeightRobin.Advance(r))
  }

  /** The last worker as long as it is a candidate, else the first candidate. */
  function Kept(last: Option<WorkerId>, ids: seq<WorkerId>): Option<WorkerId>
    requires ids != []
  {
    if last.Some? && last.value in ids then last else Some(ids[0])
  }

  class Strategy {
    const kind: Kind
    var lastUsed: Option<WorkerId>
    var latestUsed: Option<WorkerId>
    const robin: WeightRobin.Allocator

    ghost predicate Valid()
      reads this, robin
    {
      Distinct(WeightRobin.Names(robin.servers))
    }

    ghost function Remembered(): Memory
      reads this, robin
    {
      Memory(lastUsed, latestUsed, robin.servers)
    }

    constructor (kind: Kind)
      ensures Valid() && fresh(robin) && this.kind == kind && Remembered() == Memory(None, None, [])
    {
      this.kind := kind;
      lastUsed, latestUsed := None, None;
      robin := new WeightRobin.Allocator();
    }

    method AllocateLast(ws: map<WorkerId, Worker>, ids: seq<WorkerId>) returns (found: Option<WorkerId>)
      requires ids != [] && Listed(ws, ids)
      modifies this`lastUsed
      ensures lastUsed == found == Kept(old(lastUsed), ids)
    {
      if lastUsed.None? || lastUsed.value !in ws || lastUsed.value !in ids {
        lastUsed := Some(ids[0]);
      }
      found := lastUsed;
    }

    method AllocateNext(ids: seq<WorkerId>) returns (found: Option<WorkerId>)
      requires ids != []
      modifies this`latestUsed
      ensures latestUsed == found == Some(Following(old(latestUsed), ids))
    {
      if latestUsed.None? || latestUsed.value !in ids {
        latestUsed := Some(ids[0]);
      } else {
        var i := IndexOf(ids, latestUsed.value);
        latestUsed := Some(if i == |ids| - 1 then ids[0] else ids[i + 1]);
      }
      found := latestUsed;
    }

    /** The dice stand for the random number, the weights for the integers made of the loads. */
    method Allocate(ws: map<WorkerId, Worker>, ids: seq<WorkerId>, weights: map<WorkerId, int>, dice: nat)
        returns (found: Option<WorkerId>)
      requires Valid() && ids != [] && Distinct(ids) && Listed(ws, ids) && forall id <- ids :: id in weights
      modifies this, robin
      ensures Valid()
      ensures found.Some? ==> found.value in ids
      ensures found.None? <==>
              (|| (kind == LeastUsed && forall id <- ids :: ws[id].load >= 1.0)
               || (kind == MostUsed && forall id <- ids :: ws[id].load < 0.0))
      ensures Picks(kind, old(Remembered()), ws, ids, weights, dice, found, Remembered())
    {
      match kind {
        case LeastUsed =>
          found := LeastUsedOf(ws, ids);
        case MostUsed =>
          found := MostUsedOf(ws, ids);
        case LastUsed =>
          found := AllocateLast(ws, ids);
        case RoundRobin =>
          found := AllocateNext(ids);
        case RandomlyPick =>
          found := Some(ids[dice % |ids|]);
        case WeightedRobin =>
          var picked := robin.Allocate(ids, weights);
          found := Some(picked);
      }
    }
  }
}
