/** Why the smooth weighted round robin is fair. */
module Fairness {
  import opened Sequences
  import opened WeightRobin

  // ----- many rounds with the same servers

  /** The servers and how many turns each has had. */
  datatype Book = Book(servers: seq<Server>, turns: seq<nat>)

  predicate BookOk(b: Book) {
    b.servers != [] && |b.turns| == |b.servers|
  }

  function Next(b: Book): (r: Book)
    requires BookOk(b)
    ensures BookOk(r) && |r.servers| == |b.servers|
  {
    var k := Winner(b.servers);
    Book(Advance(b.servers), b.turns[k := b.turns[k] + 1])
  }

  function Play(ss: seq<Server>, k: nat): (r: Book)
    requires ss != []
    ensures BookOk(r) && |r.servers| == |ss|
  {
    if k == 0 then Book(ss, seq(|ss|, _ => 0)) else Next(Play(ss, k - 1))
  }

  ghost predicate SameShape(a: seq<Server>, b: seq<Server>) {
    |a| == |b| && forall i :: 0 <= i < |a| ==> a[i].name == b[i].name && a[i].weight == b[i].weight
  }

  lemma {:induction false} SameTotal(a: seq<Server>, b: seq<Server>)
    requires SameShape(a, b)
    ensures TotalWeight(a) == TotalWeight(b)
  {
    if a != [] {
      SameTotal(a[..|a| - 1], b[..|b| - 1]);
    }
  }

  lemma AdvanceShape(ss: seq<Server>)
    requires ss != []
    ensures SameShape(ss, Advance(ss)) && TotalWeight(Advance(ss)) == TotalWeight(ss)
  {
    SameTotal(ss, Advance(ss));
  }

  // ----- conservation

  lemma {:induction false} SumBumped(ss: seq<Server>)
    ensures SumCur(Bumped(ss)) == SumCur(ss) + TotalWeight(ss)
  {
    if ss != [] {
      SumBumped(ss[..|ss| - 1]);
      assert Bumped(ss)[..|ss| - 1] == Bumped(ss[..|ss| - 1]);
    }
  }

  lemma {:induction false} SumUpdate(ss: seq<Server>, k: nat, s: Server)
    requires k < |ss|
    ensures SumCur(ss[k := s]) == SumCur(ss) - ss[k].cur + s.cur
  {
    var init := ss[..|ss| - 1];
    if k < |ss| - 1 {
      SumUpdate(init, k, s);
      assert ss[k := s][..|ss| - 1] == init[k := s];
    } else {
      assert ss[k := s][..|ss| - 1] == init;
    }
  }

  /** Whatever the weights, a round neither creates nor destroys credit. */
  lemma AdvanceConserves(ss: seq<Server>)
    requires ss != []
    ensures SumCur(Advance(ss)) == SumCur(ss)
  {
    var k := Winner(ss);
    SumBumped(ss);
    SumUpdate(Bumped(ss), k, Bump(ss[k]).(cur := Bump(ss[k]).cur - TotalWeight(ss)));
  }

  lemma {:induction false} SumConcat(a: seq<Server>, b: seq<Server>)
    ensures SumCur(a + b) == SumCur(a) + SumCur(b)
  {
    if b == [] {
      assert a + b == a;
    } else {
      assert (a + b)[..|a + b| - 1] == a + b[..|b| - 1];
      SumConcat(a, b[..|b| - 1]);
    }
  }

  lemma {:induction false} JoinedSum(names: seq<Id>, cands: seq<Id>, w: map<Id, int>)
    requires forall c <- cands :: c in w
    ensures SumCur(Joined(names, cands, w)) == 0
  {
    if cands != [] {
      var last := cands[|cands| - 1];
      JoinedSum(names, cands[..|cands| - 1], w);
      SumConcat(Joined(names, cands[..|cands| - 1], w), [Server(last, w[last], 0)]);
    }
  }

  function Dropped(ss: seq<Server>, cands: seq<Id>): seq<Server> {
    if ss == [] then []
    else if ss[0].name in cands then Dropped(ss[1..], cands)
    else [ss[0]] + Dropped(ss[1..], cands)
  }

  lemma {:induction false} KeptAndDropped(ss: seq<Server>, cands: seq<Id>, w: map<Id, int>)
    requires forall c <- cands :: c in w
    ensures SumCur(Kept(ss, cands, w)) + SumCur(Dropped(ss, cands)) == SumCur(ss)
  {
    if ss != [] {
      KeptAndDropped(ss[1..], cands, w);
      var s := ss[0];
      assert ss == [s] + ss[1..];
      SumConcat([s], ss[1..]);
      if s.name in cands {
        SumConcat([s.(weight := w[s.name])], Kept(ss[1..], cands, w));
      } else {
        SumConcat([s], Dropped(ss[1..], cands));
      }
    }
  }

  /** With any loads and any newcomers, an allocation changes the total credit exactly by what the workers that
      dropped out took with them; in particular the credits keep summing to zero while nobody drops out. */
  lemma AllocationConserves(ss: seq<Server>, cands: seq<Id>, w: map<Id, int>)
    requires forall c <- cands :: c in w
    requires Refresh(ss, cands, w) != []
    ensures SumCur(Advance(Refresh(ss, cands, w))) == SumCur(ss) - SumCur(Dropped(ss, cands))
  {
    AdvanceConserves(Refresh(ss, cands, w));
    SumConcat(Kept(ss, cands, w), Joined(Names(ss), cands, w));
    JoinedSum(Names(ss), cands, w);
    KeptAndDropped(ss, cands, w);
  }

  // ----- the ledger: credit is weight earned minus turns taken

  function Repeat(n: nat, x: int): int {
    if n == 0 then 0 else Repeat(n - 1, x) + x
  }

  lemma {:induction false} RepeatIsTimes(n: nat, x: int)
    ensures Repeat(n, x) == n * x
  {
    if n > 0 {
      RepeatIsTimes(n - 1, x);
      assert n * x == (n - 1) * x + x;
    }
  }

  function SumTurns(turns: seq<nat>): nat {
    if turns == [] then 0 else SumTurns(turns[..|turns| - 1]) + turns[|turns| - 1]
  }

  lemma {:induction false} OneMoreTurn(turns: seq<nat>, k: nat)
    requires k < |turns|
    ensures SumTurns(turns[k := turns[k] + 1]) == SumTurns(turns) + 1
  {
    var init := turns[..|turns| - 1];
    if k < |turns| - 1 {
      OneMoreTurn(init, k);
      assert turns[k := turns[k] + 1][..|turns| - 1] == init[k := init[k] + 1];
    } else {
      assert turns[k := turns[k] + 1][..|turns| - 1] == init;
    }
  }

  ghost predicate Balanced(ss: seq<Server>, b: Book, k: nat) {
    && BookOk(b)
    && SameShape(ss, b.servers) && TotalWeight(b.servers) == TotalWeight(ss)
    && SumTurns(b.turns) == k
    && forall i :: 0 <= i < |ss| ==>
         b.servers[i].cur == ss[i].cur + Repeat(k, ss[i].weight) - Repeat(b.turns[i], TotalWeight(ss))
  }

  ghost predicate CreditOk(ss: seq<Server>, b: Book, k: nat, i: nat)
    requires i < |ss| == |b.servers| == |b.turns|
  {
    b.servers[i].cur == ss[i].cur + Repeat(k, ss[i].weight) - Repeat(b.turns[i], TotalWeight(ss))
  }

  lemma NextCredit(ss: seq<Server>, b: Book, k: nat, i: nat)
    requires BookOk(b) && SameShape(ss, b.servers) && TotalWeight(b.servers) == TotalWeight(ss)
    requires i < |ss| && CreditOk(ss, b, k, i)
    ensures CreditOk(ss, Next(b), k + 1, i)
  {
    AdvanceAt(b.servers, i);
    var turns := Next(b).turns;
    assert turns[i] == b.turns[i] + if i == Winner(b.servers) then 1 else 0;
    assert Repeat(k + 1, ss[i].weight) == Repeat(k, ss[i].weight) + ss[i].weight;
    assert Repeat(b.turns[i] + 1, TotalWeight(ss)) == Repeat(b.turns[i], TotalWeight(ss)) + TotalWeight(ss);
  }

  lemma AdvanceAt(ss: seq<Server>, i: nat)
    requires i < |ss|
    ensures Advance(ss)[i].cur == ss[i].cur + ss[i].weight - if i == Winner(ss) then TotalWeight(ss) else 0
  {
  }

  lemma NextShape(ss: seq<Server>, b: Book)
    requires BookOk(b) && SameShape(ss, b.servers) && TotalWeight(b.servers) == TotalWeight(ss)
    ensures SameShape(ss, Next(b).servers) && TotalWeight(Next(b).servers) == TotalWeight(ss)
  {
    ShapeComposes(ss, b.servers, Advance(b.servers));
    AdvanceShape(b.servers);
  }

  lemma NextTurns(b: Book)
    requires BookOk(b)
    ensures SumTurns(Next(b).turns) == SumTurns(b.turns) + 1
  {
    OneMoreTurn(b.turns, Winner(b.servers));
  }

  lemma ShapeComposes(a: seq<Server>, b: seq<Server>, c: seq<Server>)
    ensures SameShape(a, b) && SameShape(b, c) ==> SameShape(a, c)
  {
  }

  lemma AllCredits(ss: seq<Server>, c: Book, k: nat)
    requires BookOk(c) && |c.servers| == |ss| && forall i: nat | i < |ss| :: CreditOk(ss, c, k, i)
    ensures forall i :: 0 <= i < |ss| ==>
              c.servers[i].cur == ss[i].cur + Repeat(k, ss[i].weight) - Repeat(c.turns[i], TotalWeight(ss))
  {
    forall i | 0 <= i < |ss|
      ensures c.servers[i].cur == ss[i].cur + Repeat(k, ss[i].weight) - Repeat(c.turns[i], TotalWeight(ss))
    {
      assert CreditOk(ss, c, k, i);
    }
  }

  lemma NextBalanced(ss: seq<Server>, b: Book, k: nat)
    requires Balanced(ss, b, k)
    ensures Balanced(ss, Next(b), k + 1)
  {
    NextShape(ss, b);
    NextTurns(b);
    var c, n := Next(b), k + 1;
    forall i: nat | i < |ss| ensures CreditOk(ss, c, n, i) {
      NextCredit(ss, b, k, i);
    }
    AllCredits(ss, c, n);
  }

  lemma {:induction false} NoTurns(n: nat)
    ensures SumTurns(seq(n, _ => 0)) == 0
  {
    if n > 0 {
      assert seq(n, _ => 0)[..n - 1] == seq(n - 1, _ => 0);
      NoTurns(n - 1);
    }
  }

  lemma {:induction false} PlayBalanced(ss: seq<Server>, k: nat)
    requires ss != []
    ensures Balanced(ss, Play(ss, k), k)
  {
    if k == 0 {
      NoTurns(|ss|);
    } else {
      PlayBalanced(ss, k - 1);
      NextBalanced(ss, Play(ss, k - 1), k - 1);
    }
  }

  /** A server's credit after k rounds is its weight k times, less the total for every turn it has had. */
  lemma Ledger(ss: seq<Server>, k: nat, i: nat)
    requires ss != [] && i < |ss|
    ensures var b := Play(ss, k);
            b.servers[i].cur == ss[i].cur + k * ss[i].weight - b.turns[i] * TotalWeight(ss)
  {
    PlayBalanced(ss, k);
    RepeatIsTimes(k, ss[i].weight);
    RepeatIsTimes(Play(ss, k).turns[i], TotalWeight(ss));
  }

  // ----- the bound

  ghost predicate Fair(ss: seq<Server>) {
    && ss != []
    && SumCur(ss) == 0
    && TotalWeight(ss) > 0
    && forall i :: 0 <= i < |ss| ==> ss[i].weight >= 0 && ss[i].cur > -TotalWeight(ss)
  }

  lemma {:induction false} SumAtMost(ss: seq<Server>, top: int)
    requires forall i :: 0 <= i < |ss| ==> ss[i].cur <= top
    requires top <= 0
    ensures SumCur(ss) <= 0
  {
    if ss != [] {
      SumAtMost(ss[..|ss| - 1], top);
    }
  }

  /** The key step: the largest credit is positive when it is charged, so no credit ever reaches minus the total. */
  lemma AdvanceFair(ss: seq<Server>)
    requires Fair(ss)
    ensures Fair(Advance(ss))
  {
    var k, b := Winner(ss), Bumped(ss);
    SumBumped(ss);
    FirstMaxIs(b);
    if b[k].cur <= 0 {
      SumAtMost(b, b[k].cur);
    }
    AdvanceConserves(ss);
    AdvanceShape(ss);
  }

  lemma {:induction false} PlayFair(ss: seq<Server>, k: nat)
    requires Fair(ss)
    ensures Fair(Play(ss, k).servers)
  {
    if k > 0 {
      PlayFair(ss, k - 1);
      AdvanceFair(Play(ss, k - 1).servers);
    }
  }

  /** Nobody has credit or debt. */
  ghost predicate AtRest(ss: seq<Server>) {
    && ss != []
    && TotalWeight(ss) > 0
    && forall i :: 0 <= i < |ss| ==> ss[i].weight >= 0 && ss[i].cur == 0
  }

  lemma {:induction false} RestSum(ss: seq<Server>)
    requires forall i :: 0 <= i < |ss| ==> ss[i].cur == 0
    ensures SumCur(ss) == 0
  {
    if ss != [] {
      RestSum(ss[..|ss| - 1]);
    }
  }

  /** After any number of rounds nobody has had more than its share plus one turn. */
  lemma PrefixBound(ss: seq<Server>, k: nat, i: nat)
    requires AtRest(ss) && i < |ss|
    ensures Play(ss, k).turns[i] * TotalWeight(ss) < k * ss[i].weight + TotalWeight(ss)
  {
    RestSum(ss);
    PlayFair(ss, k);
    PlayBalanced(ss, k);
    Ledger(ss, k, i);
  }

  // ----- exact fairness

  lemma {:induction false} AtMostMeansExactly(ss: seq<Server>, turns: seq<nat>)
    requires |turns| == |ss| && forall i :: 0 <= i < |ss| ==> turns[i] <= ss[i].weight
    ensures SumTurns(turns) <= TotalWeight(ss)
    ensures SumTurns(turns) == TotalWeight(ss) ==> forall i :: 0 <= i < |ss| ==> turns[i] == ss[i].weight
  {
    if ss != [] {
      AtMostMeansExactly(ss[..|ss| - 1], turns[..|ss| - 1]);
    }
  }

  lemma ShareAtMost(p: nat, w: int, total: int)
    requires total > 0 && p * total < total * w + total
    ensures p <= w
  {
    assert (w + 1) * total == total * w + total;
    TimesMonotone(w + 1, p, total);
  }

  lemma TimesMonotone(a: int, b: int, t: nat)
    ensures a <= b ==> a * t <= b * t
  {
  }

  lemma FairShares(ss: seq<Server>)
    requires AtRest(ss)
    ensures var b := Play(ss, TotalWeight(ss));
            |b.turns| == |ss| && forall i :: 0 <= i < |ss| ==> b.turns[i] == ss[i].weight
  {
    var total := TotalWeight(ss);
    var b := Play(ss, total);
    PlayBalanced(ss, total);
    forall i | 0 <= i < |ss| ensures b.turns[i] <= ss[i].weight {
      PrefixBound(ss, total, i);
      ShareAtMost(b.turns[i], ss[i].weight, total);
    }
    AtMostMeansExactly(ss, b.turns);
  }

  /** From rest, as many rounds as the weights sum to give every server exactly its weight in turns
      and bring the whole list back to rest. */
  lemma ExactlyFair(ss: seq<Server>)
    requires AtRest(ss)
    ensures var b := Play(ss, TotalWeight(ss));
            b.servers == ss && forall i :: 0 <= i < |ss| ==> b.turns[i] == ss[i].weight
  {
    FairShares(ss);
    forall i | 0 <= i < |ss| ensures Play(ss, TotalWeight(ss)).servers[i] == ss[i] {
      BackToRest(ss, i);
    }
  }

  lemma BackToRest(ss: seq<Server>, i: nat)
    requires AtRest(ss) && i < |ss| && Play(ss, TotalWeight(ss)).turns[i] == ss[i].weight
    ensures Play(ss, TotalWeight(ss)).servers[i] == ss[i]
  {
    PlayBalanced(ss, TotalWeight(ss));
    Ledger(ss, TotalWeight(ss), i);
  }

  // ----- the same, for the allocator's own calls

  /** The allocator's list and the workers it picked, after k calls with the same candidates and weights. */
  datatype History = History(servers: seq<Server>, picked: seq<Id>)

  ghost predicate Offer(cands: seq<Id>, w: map<Id, int>) {
    cands != [] && Distinct(cands) && forall c <- cands :: c in w
  }

  /** What Allocate does: its list afterwards and its answer. */
  ghost predicate Allocated(h: History, cands: seq<Id>, w: map<Id, int>, h': History)
    requires Offer(cands, w)
  {
    var r := Refresh(h.servers, cands, w);
    r != [] && h' == History(Advance(r), h.picked + [r[Winner(r)].name])
  }

  ghost predicate Calls(hs: seq<History>, cands: seq<Id>, w: map<Id, int>)
    requires Offer(cands, w)
  {
    && hs != [] && hs[0].picked == []
    && forall k :: 0 <= k < |hs| - 1 ==> Allocated(hs[k], cands, w, hs[k + 1])
  }

  // ----- conservation over calls with changing offers

  datatype Request = Request(cands: seq<Id>, weights: map<Id, int>)

  /** The allocator's history over requests whose candidates and weights may all differ. */
  ghost predicate Served(hs: seq<History>, requests: seq<Request>) {
    && |hs| == |requests| + 1
    && forall k :: 0 <= k < |requests| ==>
         && Offer(requests[k].cands, requests[k].weights)
         && Allocated(hs[k], requests[k].cands, requests[k].weights, hs[k + 1])
  }

  /** The credit that the workers dropped by the first k requests took with them. */
  ghost function Lost(hs: seq<History>, requests: seq<Request>, k: nat): int
    requires k <= |requests| < |hs|
  {
    if k == 0 then 0 else Lost(hs, requests, k - 1) + SumCur(Dropped(hs[k - 1].servers, requests[k - 1].cands))
  }

  /** After the first k requests the credits sum to what they did at first, less what was lost. */
  lemma CreditIsConserved(hs: seq<History>, requests: seq<Request>, k: nat)
    requires Served(hs, requests) && k < |hs|
    ensures SumCur(hs[k].servers) == SumCur(hs[0].servers) - Lost(hs, requests, k)
  {
    forall j: nat | j < k ensures Conserved(hs[j], requests[j], hs[j + 1]) {
      CallConserves(hs[j], requests[j], hs[j + 1]);
    }
    LossesAddUp(hs, requests, k);
  }

  ghost predicate Conserved(h: History, q: Request, h': History) {
    SumCur(h'.servers) == SumCur(h.servers) - SumCur(Dropped(h.servers, q.cands))
  }

  lemma {:induction false} LossesAddUp(hs: seq<History>, requests: seq<Request>, k: nat)
    requires k <= |requests| < |hs| && forall j: nat | j < k :: Conserved(hs[j], requests[j], hs[j + 1])
    ensures SumCur(hs[k].servers) == SumCur(hs[0].servers) - Lost(hs, requests, k)
  {
    if k > 0 {
      LossesAddUp(hs, requests, k - 1);
      assert Conserved(hs[k - 1], requests[k - 1], hs[k - 1 + 1]);
    }
  }

  lemma CallConserves(h: History, q: Request, h': History)
    requires Offer(q.cands, q.weights) && Allocated(h, q.cands, q.weights, h')
    ensures Conserved(h, q, h')
  {
    AllocationConserves(h.servers, q.cands, q.weights);
  }

  /** As long as no candidate drops out, the credits of a new allocator sum to zero after every request, whatever the
      loads and whoever joins. */
  lemma {:induction false} CreditStaysZero(hs: seq<History>, requests: seq<Request>, k: nat)
    requires Served(hs, requests) && hs[0].servers == [] && k < |hs|
    requires forall j :: 0 <= j < k ==> forall x <- hs[j].servers :: x.name in requests[j].cands
    ensures SumCur(hs[k].servers) == 0
  {
    CreditIsConserved(hs, requests, k);
    NothingLost(hs, requests, k);
  }

  lemma {:induction false} NothingLost(hs: seq<History>, requests: seq<Request>, k: nat)
    requires k <= |requests| < |hs|
    requires forall j :: 0 <= j < k ==> forall x <- hs[j].servers :: x.name in requests[j].cands
    ensures Lost(hs, requests, k) == 0
  {
    if k > 0 {
      NothingLost(hs, requests, k - 1);
      NoneDropped(hs[k - 1].servers, requests[k - 1].cands);
    }
  }

  lemma {:induction false} NoneDropped(ss: seq<Server>, cands: seq<Id>)
    requires forall x <- ss :: x.name in cands
    ensures Dropped(ss, cands) == []
  {
    if ss != [] {
      NoneDropped(ss[1..], cands);
    }
  }

  // ----- fairness over calls with one offer

  /** A list that holds exactly the candidates with their weights. */
  ghost predicate Settled(ss: seq<Server>, cands: seq<Id>, w: map<Id, int>)
    requires Offer(cands, w)
  {
    && Distinct(Names(ss))
    && (forall i :: 0 <= i < |ss| ==> ss[i].name in cands && ss[i].weight == w[ss[i].name])
    && (forall c <- cands :: c in Names(ss))
  }

  lemma {:induction false} KeptSettled(ss: seq<Server>, cands: seq<Id>, w: map<Id, int>)
    requires forall c <- cands :: c in w
    requires forall i :: 0 <= i < |ss| ==> ss[i].name in cands && ss[i].weight == w[ss[i].name]
    ensures Kept(ss, cands, w) == ss
  {
    if ss != [] {
      KeptSettled(ss[1..], cands, w);
    }
  }

  lemma {:induction false} JoinedNone(names: seq<Id>, cands: seq<Id>, w: map<Id, int>)
    requires forall c <- cands :: c in w && c in names
    ensures Joined(names, cands, w) == []
  {
    if cands != [] {
      JoinedNone(names, cands[..|cands| - 1], w);
    }
  }

  lemma SettledStays(ss: seq<Server>, cands: seq<Id>, w: map<Id, int>)
    requires Offer(cands, w) && Settled(ss, cands, w)
    ensures Refresh(ss, cands, w) == ss
  {
    KeptSettled(ss, cands, w);
    JoinedNone(Names(ss), cands, w);
  }

  lemma {:induction false} FromKept(ss: seq<Server>, cands: seq<Id>, w: map<Id, int>)
    requires forall c <- cands :: c in w
    ensures forall x <- Kept(ss, cands, w) :: x.name in cands && x.weight == w[x.name]
    ensures forall x <- Kept(ss, cands, w) :: exists s <- ss :: s.name == x.name && s.cur == x.cur
    ensures forall s <- ss | s.name in cands :: s.(weight := w[s.name]) in Kept(ss, cands, w)
  {
    if ss != [] {
      FromKept(ss[1..], cands, w);
      assert ss == [ss[0]] + ss[1..];
    }
  }

  lemma {:induction false} FromJoined(names: seq<Id>, cands: seq<Id>, w: map<Id, int>)
    requires forall c <- cands :: c in w
    ensures forall x <- Joined(names, cands, w) :: x.name in cands && x.weight == w[x.name] && x.cur == 0
    ensures forall c <- cands | c !in names :: Server(c, w[c], 0) in Joined(names, cands, w)
  {
    if cands != [] {
      var init := cands[..|cands| - 1];
      assert cands == init + [cands[|cands| - 1]];
      FromJoined(names, init, w);
    }
  }

  /** Refreshing leaves exactly the candidates, with their weights and with the credit they had. */
  lemma RefreshSettles(ss: seq<Server>, cands: seq<Id>, w: map<Id, int>)
    requires Offer(cands, w) && Distinct(Names(Refresh(ss, cands, w)))
    ensures Settled(Refresh(ss, cands, w), cands, w)
    ensures NothingOwed(ss, cands) ==> forall x <- Refresh(ss, cands, w) :: x.cur == 0
  {
    var r := Refresh(ss, cands, w);
    FromKept(ss, cands, w);
    FromJoined(Names(ss), cands, w);
    forall i | 0 <= i < |r| ensures r[i].name in cands && r[i].weight == w[r[i].name] {
      assert r[i] in r;
    }
    forall c <- cands ensures c in Names(r) {
      if c in Names(ss) {
        var i :| 0 <= i < |ss| && Names(ss)[i] == c;
        assert ss[i].(weight := w[c]) in r;
      } else {
        assert Server(c, w[c], 0) in r;
      }
      var j :| 0 <= j < |r| && r[j].name == c;
      assert Names(r)[j] == c;
    }
  }

  /** A list, possibly empty, in which no candidate has credit or debt. */
  ghost predicate NothingOwed(ss: seq<Server>, cands: seq<Id>) {
    forall s <- ss :: s.name in cands ==> s.cur == 0
  }

  // ----- the sum of the candidates' weights, in whatever order they are listed

  function SumOf(names: seq<Id>, w: map<Id, int>): int
    requires forall c <- names :: c in w
  {
    if names == [] then 0 else SumOf(names[..|names| - 1], w) + w[names[|names| - 1]]
  }

  lemma {:induction false} SumWithout(names: seq<Id>, k: nat, w: map<Id, int>)
    requires k < |names| && forall c <- names :: c in w
    ensures forall c <- WithoutAt(names, k) :: c in w
    ensures SumOf(WithoutAt(names, k), w) == SumOf(names, w) - w[names[k]]
  {
    var n := |names| - 1;
    if k < n {
      SumWithout(names[..n], k, w);
      assert WithoutAt(names, k)[..n - 1] == WithoutAt(names[..n], k);
    } else {
      assert WithoutAt(names, k) == names[..n];
    }
  }

  lemma SameEmptiness(a: seq<Id>, b: seq<Id>)
    requires forall c :: c in a <==> c in b
    ensures a == [] <==> b == []
  {
    if a != [] {
      assert a[0] in b;
    }
    if b != [] {
      assert b[0] in a;
    }
  }

  lemma SameRest(a: seq<Id>, b: seq<Id>, k: nat)
    requires Distinct(a) && Distinct(b) && (forall c :: c in a <==> c in b)
    requires a != [] && k < |b| && b[k] == a[|a| - 1]
    ensures Distinct(WithoutAt(b, k)) && forall c :: c in a[..|a| - 1] <==> c in WithoutAt(b, k)
  {
    WithoutAtIs(b, k);
    forall c ensures c in a[..|a| - 1] <==> c in a && c != a[|a| - 1] {
      assert a == a[..|a| - 1] + [a[|a| - 1]];
    }
  }

  lemma {:induction false} SumReordered(a: seq<Id>, b: seq<Id>, w: map<Id, int>)
    requires Distinct(a) && Distinct(b) && (forall c <- a :: c in w) && (forall c <- b :: c in w)
    requires forall c :: c in a <==> c in b
    ensures SumOf(a, w) == SumOf(b, w)
  {
    if a == [] {
      SameEmptiness(a, b);
    } else {
      var n := |a| - 1;
      assert a[n] in b;
      var k :| 0 <= k < |b| && b[k] == a[n];
      SumWithout(b, k, w);
      var b' := WithoutAt(b, k);
      SameRest(a, b, k);
      SumReordered(a[..n], b', w);
    }
  }

  lemma {:induction false} TotalIsSum(ss: seq<Server>, cands: seq<Id>, w: map<Id, int>)
    requires forall c <- cands :: c in w
    requires forall i :: 0 <= i < |ss| ==> ss[i].name in cands && ss[i].weight == w[ss[i].name]
    ensures TotalWeight(ss) == SumOf(Names(ss), w)
  {
    if ss != [] {
      var n := |ss| - 1;
      TotalIsSum(ss[..n], cands, w);
      assert Names(ss)[..n] == Names(ss[..n]);
    }
  }

  lemma SettledTotal(ss: seq<Server>, cands: seq<Id>, w: map<Id, int>)
    requires Offer(cands, w) && Settled(ss, cands, w)
    ensures TotalWeight(ss) == SumOf(cands, w)
  {
    TotalIsSum(ss, cands, w);
    SumReordered(Names(ss), cands, w);
  }

  // ----- calls are rounds

  ghost predicate Tallied(r: seq<Server>, b: Book, picked: seq<Id>) {
    |b.turns| == |r| && forall i :: 0 <= i < |r| ==> multiset(picked)[r[i].name] == b.turns[i]
  }

  lemma NextTallied(r: seq<Server>, b: Book, picked: seq<Id>)
    requires Distinct(Names(r)) && BookOk(b) && Names(b.servers) == Names(r) && Tallied(r, b, picked)
    ensures Tallied(r, Next(b), picked + [b.servers[Winner(b.servers)].name])
  {
  }

  /** After some calls: refreshing again changes nothing, and the picks so far match the book's turns. */
  ghost predicate InStep(r: seq<Server>, b: Book, h: History, cands: seq<Id>, w: map<Id, int>)
    requires Offer(cands, w)
  {
    && BookOk(b) && SameShape(r, b.servers)
    && Refresh(h.servers, cands, w) == b.servers
    && Tallied(r, b, h.picked)
  }

  lemma CallOutcome(h: History, h': History, x: seq<Server>, cands: seq<Id>, w: map<Id, int>)
    requires Offer(cands, w) && Allocated(h, cands, w, h') && x == Refresh(h.servers, cands, w)
    ensures x != [] && h'.servers == Advance(x) && h'.picked == h.picked + [x[Winner(x)].name]
  {
  }

  lemma ShapeSettled(r: seq<Server>, n: seq<Server>, cands: seq<Id>, w: map<Id, int>)
    requires Offer(cands, w) && Settled(r, cands, w) && SameShape(r, n)
    ensures Names(n) == Names(r) && Settled(n, cands, w)
  {
  }

  lemma CallStep(r: seq<Server>, b: Book, h: History, h': History, cands: seq<Id>, w: map<Id, int>)
    requires Offer(cands, w) && Settled(r, cands, w)
    requires InStep(r, b, h, cands, w) && Allocated(h, cands, w, h')
    ensures h'.servers == Next(b).servers && SameShape(r, Next(b).servers)
    ensures Tallied(r, Next(b), h'.picked)
  {
    CallOutcome(h, h', b.servers, cands, w);
    AdvanceShape(b.servers);
    ShapeSettled(r, b.servers, cands, w);
    NextTallied(r, b, h.picked);
  }

  lemma StepInStep(r: seq<Server>, b: Book, b': Book, h: History, h': History, cands: seq<Id>, w: map<Id, int>)
    requires Offer(cands, w) && Settled(r, cands, w) && BookOk(b) && b' == Next(b)
    requires InStep(r, b, h, cands, w) && Allocated(h, cands, w, h')
    ensures InStep(r, b', h', cands, w) && h'.servers == b'.servers
  {
    CallStep(r, b, h, h', cands, w);
    ShapeSettled(r, b'.servers, cands, w);
    SettledStays(b'.servers, cands, w);
  }

  lemma StartInStep(r: seq<Server>, h: History, cands: seq<Id>, w: map<Id, int>)
    requires Offer(cands, w) && r == Refresh(h.servers, cands, w) && r != [] && h.picked == []
    ensures InStep(r, Book(r, seq(|r|, _ => 0)), h, cands, w)
  {
  }

  lemma {:induction false} CallsArePlay(hs: seq<History>, cands: seq<Id>, w: map<Id, int>, r: seq<Server>, k: nat)
      returns (b: Book)
    requires Offer(cands, w) && Calls(hs, cands, w) && k < |hs|
    requires r == Refresh(hs[0].servers, cands, w) && r != [] && Settled(r, cands, w)
    ensures b == Play(r, k) && InStep(r, b, hs[k], cands, w)
    ensures k > 0 ==> hs[k].servers == b.servers
  {
    if k == 0 {
      b := Book(r, seq(|r|, _ => 0));
      StartInStep(r, hs[0], cands, w);
    } else {
      var b0 := CallsArePlay(hs, cands, w, r, k - 1);
      b := Next(b0);
      StepInStep(r, b0, b, hs[k - 1], hs[k], cands, w);
    }
  }

  lemma {:induction false} JoinedDistinct(names: seq<Id>, cands: seq<Id>, w: map<Id, int>)
    requires Distinct(cands) && forall c <- cands :: c in w
    ensures Distinct(Names(Joined(names, cands, w)))
  {
    if cands != [] {
      var init, last := cands[..|cands| - 1], cands[|cands| - 1];
      JoinedDistinct(names, init, w);
      JoinedNames(names, init, w);
      var j := Joined(names, init, w);
      assert forall i :: 0 <= i < |j| ==> j[i] in j;
    }
  }

  lemma RefreshDistinct(ss: seq<Server>, cands: seq<Id>, w: map<Id, int>)
    requires Offer(cands, w) && Distinct(Names(ss))
    ensures Distinct(Names(Refresh(ss, cands, w)))
  {
    var now := seq(|ss|, i requires 0 <= i < |ss| => if ss[i].name in cands then ss[i].(weight := w[ss[i].name]) else ss[i]);
    assert Names(now) == Names(ss);
    FilteredReweighed(ss, now, cands, w);
    FilteredDistinct(now, cands);
    JoinedDistinct(Names(ss), cands, w);
    JoinedNames(Names(ss), cands, w);
    var k, j := Kept(ss, cands, w), Joined(Names(ss), cands, w);
    forall x, y | 0 <= x < |k| && 0 <= y < |j| ensures k[x].name != j[y].name {
      assert k[x] in Filtered(now, cands) && j[y] in j;
      var i :| 0 <= i < |now| && now[i] == k[x];
      assert Names(ss)[i] == k[x].name;
    }
  }

  /** No candidate has credit or debt at first, and the weights are non-negative and not all zero. */
  ghost predicate FairStart(ss: seq<Server>, cands: seq<Id>, w: map<Id, int>)
    requires Offer(cands, w)
  {
    && NothingOwed(ss, cands) && Distinct(Names(ss))
    && SumOf(cands, w) > 0 && forall c <- cands :: w[c] >= 0
  }

  lemma FairStartRests(ss: seq<Server>, cands: seq<Id>, w: map<Id, int>)
    requires Offer(cands, w) && FairStart(ss, cands, w)
    ensures var r := Refresh(ss, cands, w); Settled(r, cands, w) && TotalWeight(r) == SumOf(cands, w) && AtRest(r)
  {
    var r := Refresh(ss, cands, w);
    RefreshDistinct(ss, cands, w);
    RefreshSettles(ss, cands, w);
    SettledTotal(r, cands, w);
    assert forall i :: 0 <= i < |r| ==> r[i] in r;
  }

  /** At any moment of an unchanged offer that began with nothing owed, a worker has had fewer turns than
      its exact share plus one. */
  lemma FairPrefix(hs: seq<History>, cands: seq<Id>, w: map<Id, int>, k: nat, c: Id)
    requires Offer(cands, w) && Calls(hs, cands, w) && FairStart(hs[0].servers, cands, w)
    requires k < |hs| && c in cands
    ensures multiset(hs[k].picked)[c] * SumOf(cands, w) < k * w[c] + SumOf(cands, w)
  {
    var r := Refresh(hs[0].servers, cands, w);
    FairStartRests(hs[0].servers, cands, w);
    var b := CallsArePlay(hs, cands, w, r, k);
    var i :| 0 <= i < |r| && Names(r)[i] == c;
    PrefixBound(r, k, i);
  }

  /** As many calls as the weights sum to pick every worker exactly its weight times, and leave nothing owed. */
  lemma FairCycle(hs: seq<History>, cands: seq<Id>, w: map<Id, int>)
    requires Offer(cands, w) && Calls(hs, cands, w) && FairStart(hs[0].servers, cands, w)
    requires |hs| == SumOf(cands, w) + 1
    ensures forall c <- cands :: multiset(hs[|hs| - 1].picked)[c] == w[c]
    ensures forall s <- hs[|hs| - 1].servers :: s.name in cands && s.cur == 0
  {
    var r := Refresh(hs[0].servers, cands, w);
    FairStartRests(hs[0].servers, cands, w);
    var b := CallsArePlay(hs, cands, w, r, |hs| - 1);
    ExactlyFair(r);
    forall c <- cands ensures multiset(hs[|hs| - 1].picked)[c] == w[c] {
      var i :| 0 <= i < |r| && Names(r)[i] == c;
    }
  }
}
