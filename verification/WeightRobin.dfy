/** The smooth weighted round robin of strategy.js. A worker's weight is the integer the source derives from its load. */
module WeightRobin {
  import opened Sequences

  type Id = string

  datatype Server = Server(name: Id, weight: int, cur: int)

  function Names(ss: seq<Server>): (r: seq<Id>)
    ensures |r| == |ss| && forall i :: 0 <= i < |ss| ==> r[i] == ss[i].name
  {
    seq(|ss|, i requires 0 <= i < |ss| => ss[i].name)
  }

  // ----- which servers take part

  /** Servers that are still candidates, in their old order, with this round's weights. */
  function Kept(ss: seq<Server>, cands: seq<Id>, w: map<Id, int>): seq<Server>
    requires forall c <- cands :: c in w
  {
    if ss == [] then []
    else if ss[0].name in cands then [ss[0].(weight := w[ss[0].name])] + Kept(ss[1..], cands, w)
    else Kept(ss[1..], cands, w)
  }

  /** Candidates not seen before join at the end with nothing owed to them. */
  function Joined(names: seq<Id>, cands: seq<Id>, w: map<Id, int>): seq<Server>
    requires forall c <- cands :: c in w
  {
    if cands == [] then []
    else
      var init, last := cands[..|cands| - 1], cands[|cands| - 1];
      if last in names then Joined(names, init, w) else Joined(names, init, w) + [Server(last, w[last], 0)]
  }

  function Refresh(ss: seq<Server>, cands: seq<Id>, w: map<Id, int>): seq<Server>
    requires forall c <- cands :: c in w
  {
    Kept(ss, cands, w) + Joined(Names(ss), cands, w)
  }

  // ----- one round

  function TotalWeight(ss: seq<Server>): int {
    if ss == [] then 0 else TotalWeight(ss[..|ss| - 1]) + ss[|ss| - 1].weight
  }

  function SumCur(ss: seq<Server>): int {
    if ss == [] then 0 else SumCur(ss[..|ss| - 1]) + ss[|ss| - 1].cur
  }

  function Bump(s: Server): Server {
    s.(cur := s.cur + s.weight)
  }

  function Bumped(ss: seq<Server>): (r: seq<Server>)
    ensures |r| == |ss| && forall i :: 0 <= i < |ss| ==> r[i] == Bump(ss[i])
  {
    seq(|ss|, i requires 0 <= i < |ss| => Bump(ss[i]))
  }

  /** The first of the servers with the largest cur. */
  ghost predicate IsFirstMax(ss: seq<Server>, k: nat) {
    && k < |ss|
    && (forall j :: 0 <= j < |ss| ==> ss[j].cur <= ss[k].cur)
    && (forall j :: 0 <= j < k ==> ss[j].cur < ss[k].cur)
  }

  function FirstMax(ss: seq<Server>): (k: nat)
    requires ss != []
    ensures k < |ss|
  {
    if |ss| == 1 then 0
    else
      var k := FirstMax(ss[..|ss| - 1]);
      if ss[|ss| - 1].cur > ss[k].cur then |ss| - 1 else k
  }

  lemma {:induction false} FirstMaxIs(ss: seq<Server>)
    requires ss != []
    ensures IsFirstMax(ss, FirstMax(ss))
  {
    if |ss| > 1 {
      var init := ss[..|ss| - 1];
      FirstMaxIs(init);
      assert forall j :: 0 <= j < |init| ==> init[j] == ss[j];
    }
  }

  function Winner(ss: seq<Server>): (k: nat)
    requires ss != []
    ensures k < |ss|
  {
    FirstMax(Bumped(ss))
  }

  function Charge(ss: seq<Server>, k: nat): seq<Server>
    requires k < |ss|
  {
    Bumped(ss)[k := Bump(ss[k]).(cur := Bump(ss[k]).cur - TotalWeight(ss))]
  }

  function Advance(ss: seq<Server>): (r: seq<Server>)
    requires ss != []
    ensures |r| == |ss|
  {
    Charge(ss, Winner(ss))
  }

  // ----- the allocator

  function Find(ss: seq<Server>, name: Id): (i: int)
    ensures -1 <= i < |ss|
    ensures i == -1 <==> name !in Names(ss)
    ensures i >= 0 ==> ss[i].name == name
  {
    if ss == [] then -1
    else
      var init := ss[..|ss| - 1];
      var i := Find(init, name);
      assert Names(ss) == Names(init) + [ss[|ss| - 1].name];
      if i >= 0 then i else if ss[|ss| - 1].name == name then |ss| - 1 else -1
  }

  function Filtered(ss: seq<Server>, cands: seq<Id>): (r: seq<Server>)
    ensures forall x :: x in r <==> x in ss && x.name in cands
  {
    if ss == [] then []
    else if ss[0].name in cands then [ss[0]] + Filtered(ss[1..], cands)
    else Filtered(ss[1..], cands)
  }

  lemma {:induction false} FilteredDistinct(ss: seq<Server>, cands: seq<Id>)
    requires Distinct(Names(ss))
    ensures Distinct(Names(Filtered(ss, cands)))
  {
    if ss != [] {
      assert Names(ss)[1..] == Names(ss[1..]);
      FilteredDistinct(ss[1..], cands);
      var rest := Filtered(ss[1..], cands);
      assert forall x <- rest :: x in ss[1..];
      forall j | 0 <= j < |rest| ensures rest[j].name != ss[0].name {
        var k :| 0 <= k < |ss[1..]| && ss[1..][k] == rest[j];
        assert Names(ss)[k + 1] == rest[j].name;
      }
    }
  }

  lemma {:induction false} FilteredConcat(a: seq<Server>, b: seq<Server>, cands: seq<Id>)
    ensures Filtered(a + b, cands) == Filtered(a, cands) + Filtered(b, cands)
  {
    if a == [] {
      assert a + b == b;
    } else {
      assert (a + b)[1..] == a[1..] + b;
      FilteredConcat(a[1..], b, cands);
    }
  }

  lemma {:induction false} FilteredAll(ss: seq<Server>, cands: seq<Id>)
    requires forall x <- ss :: x.name in cands
    ensures Filtered(ss, cands) == ss
  {
    if ss != [] {
      FilteredAll(ss[1..], cands);
    }
  }

  /** The old servers as they stand once the candidates' weights are noted. */
  ghost predicate Reweighed(was: seq<Server>, now: seq<Server>, cands: seq<Id>, w: map<Id, int>)
    requires forall c <- cands :: c in w
  {
    && |now| == |was|
    && forall j :: 0 <= j < |was| ==>
         now[j] == if was[j].name in cands then was[j].(weight := w[was[j].name]) else was[j]
  }

  lemma {:induction false} FilteredReweighed(was: seq<Server>, now: seq<Server>, cands: seq<Id>, w: map<Id, int>)
    requires forall c <- cands :: c in w
    requires Reweighed(was, now, cands, w)
    ensures Filtered(now, cands) == Kept(was, cands, w)
  {
    if was != [] {
      assert now[0] == if was[0].name in cands then was[0].(weight := w[was[0].name]) else was[0];
      FilteredReweighed(was[1..], now[1..], cands, w);
    }
  }

  lemma {:induction false} JoinedNames(names: seq<Id>, cands: seq<Id>, w: map<Id, int>)
    requires forall c <- cands :: c in w
    ensures forall x <- Joined(names, cands, w) :: x.name in cands && x.name !in names
  {
    if cands != [] {
      JoinedNames(names, cands[..|cands| - 1], w);
    }
  }

  /** The list while candidates are being enrolled: the old servers reweighed, then the new ones. */
  ghost predicate Enrolled(was: seq<Server>, now: seq<Server>, done: seq<Id>, w: map<Id, int>)
    requires forall c <- done :: c in w
  {
    && Distinct(Names(now)) && |now| >= |was|
    && Reweighed(was, now[..|was|], done, w)
    && now[|was|..] == Joined(Names(was), done, w)
    && forall c <- done :: c in Names(now)
  }

  lemma EnrolNew(was: seq<Server>, now: seq<Server>, done: seq<Id>, id: Id, w: map<Id, int>)
    requires (forall c <- done :: c in w) && id in w
    requires Enrolled(was, now, done, w) && id !in Names(now)
    ensures Enrolled(was, now + [Server(id, w[id], 0)], done + [id], w)
  {
    var n, next, all := |was|, now + [Server(id, w[id], 0)], done + [id];
    assert Names(next) == Names(now) + [id];
    SameNames(was, now[..n], done, w);
    assert Names(now)[..n] == Names(was);
    ReweighedMore(was, now[..n], done, id, w);
    JoinedOne(Names(was), done, id, w);
    assert next[n..] == now[n..] + [Server(id, w[id], 0)] && next[..n] == now[..n];
    forall c <- all ensures c in Names(next) {
      if c != id { assert c in done; }
    }
  }

  lemma ReweighedMore(was: seq<Server>, now: seq<Server>, done: seq<Id>, id: Id, w: map<Id, int>)
    requires (forall c <- done :: c in w) && id in w && id !in Names(was) && Reweighed(was, now, done, w)
    ensures Reweighed(was, now, done + [id], w)
  {
    forall j | 0 <= j < |was| ensures was[j].name in done + [id] <==> was[j].name in done {
      assert Names(was)[j] == was[j].name;
    }
  }

  lemma JoinedOne(names: seq<Id>, done: seq<Id>, id: Id, w: map<Id, int>)
    requires (forall c <- done :: c in w) && id in w && id !in names
    ensures Joined(names, done + [id], w) == Joined(names, done, w) + [Server(id, w[id], 0)]
  {
    assert (done + [id])[..|done|] == done;
  }

  /** A listed candidate that is not yet enrolled stands among the old servers. */
  lemma ListedBefore(was: seq<Server>, now: seq<Server>, done: seq<Id>, id: Id, w: map<Id, int>, k: nat)
    requires (forall c <- done :: c in w) && id !in done
    requires Enrolled(was, now, done, w) && k < |now| && now[k].name == id
    ensures k < |was| && was[k].name == id
    ensures forall j :: 0 <= j < |was| && j != k ==> was[j].name != id
  {
    var n := |was|;
    JoinedNames(Names(was), done, w);
    forall j | n <= j < |now| ensures now[j].name != id {
      assert now[j] == now[n..][j - n] && now[j] in Joined(Names(was), done, w);
    }
    SameNames(was, now[..n], done, w);
    forall j | 0 <= j < n && j != k ensures was[j].name != id {
      assert Names(now)[j] != Names(now)[k] && now[..n][j] == now[j];
    }
    assert now[..n][k] == now[k];
  }

  lemma SameNames(was: seq<Server>, now: seq<Server>, cands: seq<Id>, w: map<Id, int>)
    requires (forall c <- cands :: c in w) && Reweighed(was, now, cands, w)
    ensures forall j :: 0 <= j < |was| ==> was[j].name == now[j].name
  {
  }

  lemma EnrolOld(was: seq<Server>, now: seq<Server>, done: seq<Id>, id: Id, w: map<Id, int>, k: nat)
    requires (forall c <- done :: c in w) && id in w && id !in done
    requires Enrolled(was, now, done, w) && k < |now| && now[k].name == id
    ensures Enrolled(was, now[k := now[k].(weight := w[id])], done + [id], w)
  {
    var n, next, all := |was|, now[k := now[k].(weight := w[id])], done + [id];
    ListedBefore(was, now, done, id, w, k);
    assert Names(next) == Names(now);
    assert next[n..] == now[n..] && all[..|all| - 1] == done;
    assert next[..n] == now[..n][k := next[k]];
    forall c <- all ensures c in Names(next) {
      if c != id { assert c in done; } else { assert Names(next)[k] == id; }
    }
  }

  lemma OneMoreBumped(r: seq<Server>, i: nat)
    requires i < |r|
    ensures Bumped(r[..i + 1]) == Bumped(r[..i]) + [Bump(r[i])]
    ensures TotalWeight(r[..i + 1]) == TotalWeight(r[..i]) + r[i].weight
  {
    assert r[..i + 1][..i] == r[..i];
  }

  lemma OneMoreMax(b: seq<Server>, x: Server)
    ensures FirstMax(b + [x]) == if b == [] || b[FirstMax(b)].cur < x.cur then |b| else FirstMax(b)
  {
  }

  /** The servers once the first i have been given their weight. */
  function Raised(r: seq<Server>, i: nat): (s: seq<Server>)
    requires i <= |r|
    ensures |s| == |r| && forall j :: 0 <= j < |r| ==> s[j] == if j < i then Bump(r[j]) else r[j]
  {
    Bumped(r[..i]) + r[i..]
  }

  /** What one pass over the first i servers has found: the position of the first largest, and the total weight. */
  ghost predicate Surveyed(r: seq<Server>, i: nat, s: seq<Server>, index: int, total: int) {
    && i <= |r| && s == Raised(r, i) && total == TotalWeight(r[..i])
    && index == if i == 0 then -1 else FirstMax(Bumped(r[..i]))
  }

  lemma RaisedNext(r: seq<Server>, i: nat)
    requires i < |r|
    ensures Raised(r, i)[i := Bump(r[i])] == Raised(r, i + 1)
  {
  }

  lemma SurveyOne(r: seq<Server>, i: nat, s: seq<Server>, index: int, total: int)
    requires Surveyed(r, i, s, index, total) && i < |r|
    ensures s[i] == r[i] && -1 <= index < i
    ensures var next := s[i := Bump(r[i])];
            Surveyed(r, i + 1, next, if index == -1 || next[index].cur < next[i].cur then i else index, total + r[i].weight)
  {
    OneMoreBumped(r, i);
    var b := Bumped(r[..i]);
    OneMoreMax(b, Bump(r[i]));
    RaisedNext(r, i);
    assert i > 0 ==> b[index] == Bump(r[index]);
  }

  lemma SurveyAll(r: seq<Server>, s: seq<Server>, index: int, total: int)
    requires Surveyed(r, |r|, s, index, total) && r != []
    ensures s == Bumped(r) && index == Winner(r) && total == TotalWeight(r)
  {
    assert r[..|r|] == r;
  }

  /** Taking out one of the servers before the given rest. */
  lemma Splice(was: seq<Server>, i: nat, rest: seq<Server>)
    requires i < |was|
    ensures var s := was[..i + 1] + rest;
            && s[i] == was[i] && s[..i] + s[i + 1..] == was[..i] + rest && s == was[..i] + ([was[i]] + rest)
  {
  }

  lemma FilteredFrom(was: seq<Server>, i: nat, cands: seq<Id>)
    requires i < |was|
    ensures var rest := Filtered(was[i + 1..], cands);
            Filtered(was[i..], cands) == if was[i].name in cands then [was[i]] + rest else rest
  {
  }

  class Allocator {
    var servers: seq<Server>

    constructor ()
      ensures servers == []
    {
      servers := [];
    }

    /** Enrols the candidates with their weights. */
    method Enrol(cands: seq<Id>, w: map<Id, int>)
      requires Distinct(cands) && (forall c <- cands :: c in w) && Distinct(Names(servers))
      modifies this
      ensures Enrolled(old(servers), servers, cands, w)
    {
      ghost var was := servers;
      assert servers[..|was|] == was;
      for i := 0 to |cands|
        invariant Enrolled(was, servers, cands[..i], w)
      {
        var id := cands[i];
        assert cands[..i + 1] == cands[..i] + [id];
        assert id !in cands[..i];
        var index := Find(servers, id);
        if index == -1 {
          EnrolNew(was, servers, cands[..i], id, w);
          servers := servers + [Server(id, w[id], 0)];
        } else {
          EnrolOld(was, servers, cands[..i], id, w, index);
          servers := servers[index := servers[index].(weight := w[id])];
        }
      }
      assert cands[..|cands|] == cands;
    }

    /** Drops the servers that are no longer candidates, from the end. */
    method Drop(cands: seq<Id>)
      modifies this
      ensures servers == Filtered(old(servers), cands)
    {
      ghost var was := servers;
      var i := |servers| - 1;
      while i >= 0
        invariant -1 <= i < |was|
        invariant servers == was[..i + 1] + Filtered(was[i + 1..], cands)
      {
        FilteredFrom(was, i, cands);
        Splice(was, i, Filtered(was[i + 1..], cands));
        if servers[i].name !in cands {
          servers := servers[..i] + servers[i + 1..];
        }
        i := i - 1;
      }
      assert was[0..] == was;
    }

    /** Adds every weight, noting the total and the first of the largest. */
    method Raise() returns (index: int, total: int)
      requires servers != []
      modifies this
      ensures servers == Bumped(old(servers)) && index == Winner(old(servers)) && total == TotalWeight(old(servers))
    {
      ghost var r := servers;
      var size := |servers|;
      index, total := -1, 0;
      for i := 0 to size
        invariant |servers| == size == |r| && Surveyed(r, i, servers, index, total)
      {
        SurveyOne(r, i, servers, index, total);
        servers := servers[i := servers[i].(cur := servers[i].cur + servers[i].weight)];
        total := total + servers[i].weight;
        if index == -1 || servers[index].cur < servers[i].cur {
          index := i;
        }
      }
      SurveyAll(r, servers, index, total);
    }

    /** Charges the total to the server that is picked. */
    method Pick() returns (picked: Id)
      requires servers != []
      modifies this
      ensures servers == Advance(old(servers)) && picked == old(servers)[Winner(old(servers))].name
    {
      var index, total := Raise();
      servers := servers[index := servers[index].(cur := servers[index].cur - total)];
      picked := servers[index].name;
    }

    /** One allocation: enrol, drop, pick. */
    method Allocate(cands: seq<Id>, w: map<Id, int>) returns (picked: Id)
      requires cands != [] && Distinct(cands) && forall c <- cands :: c in w
      requires Distinct(Names(servers))
      modifies this
      ensures Distinct(Names(servers)) && picked in cands
      ensures var r := Refresh(old(servers), cands, w);
              r != [] && servers == Advance(r) && picked == r[Winner(r)].name
    {
      ghost var was := servers;
      Enrol(cands, w);
      ghost var all := servers;
      Drop(cands);
      ghost var r := servers;
      FilteredDistinct(all, cands);
      RefreshIsFiltered(was, all, cands, w);
      assert r[Winner(r)] in r;
      AdvanceNames(r);
      picked := Pick();
    }
  }

  lemma AdvanceNames(r: seq<Server>)
    requires r != []
    ensures Names(Advance(r)) == Names(r)
  {
  }

  lemma RefreshIsFiltered(was: seq<Server>, all: seq<Server>, cands: seq<Id>, w: map<Id, int>)
    requires cands != [] && forall c <- cands :: c in w
    requires Enrolled(was, all, cands, w)
    ensures Filtered(all, cands) == Refresh(was, cands, w) != []
  {
    assert all == all[..|was|] + all[|was|..];
    FilteredConcat(all[..|was|], all[|was|..], cands);
    FilteredReweighed(was, all[..|was|], cands, w);
    JoinedNames(Names(was), cands, w);
    FilteredAll(all[|was|..], cands);
    assert cands[0] in Names(all);
    var k :| 0 <= k < |all| && Names(all)[k] == cands[0];
    assert all[k] in Filtered(all, cands);
  }

  /** The list a round works on: servers from before keep their order, new candidates come in the order in which they
      are listed, and everyone from before comes before everyone new. */
  lemma RefreshOrder(ss: seq<Server>, cands: seq<Id>, w: map<Id, int>)
    requires forall c <- cands :: c in w
    ensures var kept, joined := Names(Kept(ss, cands, w)), Names(Joined(Names(ss), cands, w));
            && Names(Refresh(ss, cands, w)) == kept + joined
            && InOrderOf(kept, Names(ss)) && InOrderOf(joined, cands)
            && (forall c :: c in kept <==> c in Names(ss) && c in cands)
            && (forall c :: c in joined <==> c !in Names(ss) && c in cands)
  {
    KeptOrder(ss, cands, w);
    JoinedOrder(Names(ss), cands, w);
  }

  lemma {:induction false} KeptOrder(ss: seq<Server>, cands: seq<Id>, w: map<Id, int>)
    requires forall c <- cands :: c in w
    ensures InOrderOf(Names(Kept(ss, cands, w)), Names(ss))
    ensures forall c :: c in Names(Kept(ss, cands, w)) <==> c in Names(ss) && c in cands
  {
    if ss != [] {
      var init, last := ss[..|ss| - 1], ss[|ss| - 1];
      KeptOrder(init, cands, w);
      KeptLast(ss, cands, w);
      var kept := Names(Kept(init, cands, w));
      assert Names(ss) == Names(init) + [last.name];
      assert Names(Kept(ss, cands, w)) == if last.name in cands then kept + [last.name] else kept;
      OrderGrows(kept, Names(init), last.name);
    }
  }

  lemma {:induction false} KeptLast(ss: seq<Server>, cands: seq<Id>, w: map<Id, int>)
    requires ss != [] && forall c <- cands :: c in w
    ensures var init, last := ss[..|ss| - 1], ss[|ss| - 1];
            Kept(ss, cands, w) ==
            Kept(init, cands, w) + if last.name in cands then [last.(weight := w[last.name])] else []
  {
    if |ss| > 1 {
      assert ss[1..][..|ss| - 2] == ss[..|ss| - 1][1..];
      KeptLast(ss[1..], cands, w);
    }
  }

  lemma {:induction false} JoinedOrder(names: seq<Id>, cands: seq<Id>, w: map<Id, int>)
    requires forall c <- cands :: c in w
    ensures InOrderOf(Names(Joined(names, cands, w)), cands)
    ensures forall c :: c in Names(Joined(names, cands, w)) <==> c !in names && c in cands
  {
    if cands != [] {
      var init, last := cands[..|cands| - 1], cands[|cands| - 1];
      assert cands == init + [last];
      JoinedOrder(names, init, w);
      var joined := Names(Joined(names, init, w));
      assert Names(Joined(names, cands, w)) == if last in names then joined else joined + [last];
      OrderGrows(joined, init, last);
    }
  }
}
