/** The slots of a video mixer: at most maxInput streams are mixed, later ones wait. Lists are kept in the order in
    which the source's tables enumerate their keys. */
module InputManager {
  import opened Options
  import opened Sequences

  type StreamId = string
  type Media = string

  /** `media` stands for the codec, connection and avatar that travel with a stream. */
  datatype Input = Input(stream: StreamId, slot: Option<nat>, media: Media, primaryCount: nat)

  function Streams(l: seq<Input>): (r: seq<StreamId>)
    ensures |r| == |l| && forall i :: 0 <= i < |l| ==> r[i] == l[i].stream
  {
    seq(|l|, i requires 0 <= i < |l| => l[i].stream)
  }

  predicate AllPlaced(l: seq<Input>) {
    forall i :: 0 <= i < |l| ==> l[i].slot.Some?
  }

  function Slots(l: seq<Input>): (r: seq<nat>)
    requires AllPlaced(l)
    ensures |r| == |l| && forall i :: 0 <= i < |l| ==> r[i] == l[i].slot.value
  {
    seq(|l|, i requires 0 <= i < |l| && l[i].slot.Some? => l[i].slot.value)
  }

  function UpTo(n: nat): (r: seq<nat>)
    ensures |r| == n && forall i :: 0 <= i < n ==> r[i] == i
  {
    seq(n, i requires 0 <= i => i)
  }

  /** The active slots and the free ones are exactly 0..max-1, each once. */
  ghost predicate Partition(inputs: seq<Input>, free: seq<nat>, max: nat) {
    AllPlaced(inputs) && multiset(Slots(inputs)) + multiset(free) == multiset(UpTo(max))
  }

  ghost predicate StreamsOk(inputs: seq<Input>, pending: seq<Input>) {
    && Distinct(Streams(inputs)) && Distinct(Streams(pending))
    && (forall s <- Streams(inputs) :: s !in Streams(pending))
    && (forall i :: 0 <= i < |pending| ==> pending[i].slot.None?)
  }

  function Position(l: seq<Input>, stream: StreamId): (i: int)
    ensures -1 <= i < |l|
    ensures i == -1 <==> stream !in Streams(l)
    ensures i >= 0 ==> l[i].stream == stream
  {
    if stream in Streams(l) then IndexOf(Streams(l), stream) else -1
  }

  /** A stream that waits already keeps its place in the queue. */
  function Queued(pending: seq<Input>, x: Input): seq<Input> {
    var i := Position(pending, x.stream);
    if i >= 0 then pending[i := x] else pending + [x]
  }

  /** The slot of an active stream. */
  function SlotOf(inputs: seq<Input>, stream: StreamId): (slot: nat)
    requires AllPlaced(inputs) && stream in Streams(inputs)
    ensures slot in Slots(inputs)
  {
    assert Slots(inputs)[Position(inputs, stream)] == inputs[Position(inputs, stream)].slot.value;
    inputs[Position(inputs, stream)].slot.value
  }

  /** The stream has been made primary once more. */
  function Counted(inputs: seq<Input>, stream: StreamId): seq<Input> {
    var i := Position(inputs, stream);
    if i >= 0 then inputs[i := inputs[i].(primaryCount := inputs[i].primaryCount + 1)] else inputs
  }

  /** The first input of least primary count: the one that gives way. */
  ghost predicate IsLeastPrimary(l: seq<Input>, k: nat) {
    && k < |l|
    && (forall j :: 0 <= j < |l| ==> l[k].primaryCount <= l[j].primaryCount)
    && (forall j :: 0 <= j < k ==> l[k].primaryCount < l[j].primaryCount)
  }

  // ----- lists

  lemma SlotsAppend(l: seq<Input>, x: Input)
    requires AllPlaced(l) && x.slot.Some?
    ensures AllPlaced(l + [x]) && Slots(l + [x]) == Slots(l) + [x.slot.value]
  {
  }

  lemma SlotsWithout(l: seq<Input>, i: nat)
    requires AllPlaced(l) && i < |l|
    ensures AllPlaced(WithoutAt(l, i))
    ensures multiset(Slots(l)) == multiset(Slots(WithoutAt(l, i))) + multiset{l[i].slot.value}
  {
    var w := WithoutAt(l, i);
    assert Slots(w) == Slots(l)[..i] + Slots(l)[i + 1..];
    assert Slots(l) == Slots(l)[..i] + [Slots(l)[i]] + Slots(l)[i + 1..];
  }

  lemma StreamsWithout(l: seq<Input>, i: nat)
    requires Distinct(Streams(l)) && i < |l|
    ensures Distinct(Streams(WithoutAt(l, i)))
    ensures forall s :: s in Streams(WithoutAt(l, i)) <==> s in Streams(l) && s != l[i].stream
  {
    assert Streams(WithoutAt(l, i)) == WithoutAt(Streams(l), i);
    WithoutAtIs(Streams(l), i);
  }

  lemma ActiveLeaves(inputs: seq<Input>, pending: seq<Input>, free: seq<nat>, max: nat, i: nat)
    requires Partition(inputs, free, max) && StreamsOk(inputs, pending) && i < |inputs|
    ensures Partition(WithoutAt(inputs, i), free + [inputs[i].slot.value], max)
    ensures StreamsOk(WithoutAt(inputs, i), pending)
  {
    SlotsWithout(inputs, i);
    StreamsWithout(inputs, i);
  }

  lemma PendingLeaves(inputs: seq<Input>, pending: seq<Input>, i: nat)
    requires StreamsOk(inputs, pending) && i < |pending|
    ensures StreamsOk(inputs, WithoutAt(pending, i))
  {
  }

  lemma InOneTable(inputs: seq<Input>, pending: seq<Input>, stream: StreamId)
    requires StreamsOk(inputs, pending)
    ensures stream in Streams(inputs) ==> stream !in Streams(pending)
  {
  }

  lemma PendingEnters(inputs: seq<Input>, pending: seq<Input>, free: seq<nat>, max: nat, i: nat, pos: nat)
    requires Partition(inputs, free, max) && StreamsOk(inputs, pending) && i < |pending| && pos < |free|
    ensures var p := pending[i].(slot := Some(free[pos]));
            Partition(inputs + [p], WithoutAt(free, pos), max) && StreamsOk(inputs + [p], WithoutAt(pending, i))
  {
    var p := pending[i].(slot := Some(free[pos]));
    MultisetWithoutAt(free, pos);
    SlotsAppend(inputs, p);
    PendingLeaves(inputs, pending, i);
    assert Streams(inputs + [p]) == Streams(inputs) + [p.stream];
    assert Streams(pending)[i] == p.stream;
    assert p.stream !in Streams(inputs);
    StreamsWithout(pending, i);
  }

  lemma StreamEnters(inputs: seq<Input>, pending: seq<Input>, free: seq<nat>, max: nat, x: Input)
    requires Partition(inputs, free, max) && StreamsOk(inputs, pending) && free != []
    requires x.slot == Some(free[|free| - 1]) && x.stream !in Streams(inputs) && x.stream !in Streams(pending)
    ensures Partition(inputs + [x], free[..|free| - 1], max) && StreamsOk(inputs + [x], pending)
  {
    SlotsAppend(inputs, x);
    assert free == free[..|free| - 1] + [free[|free| - 1]];
    assert Streams(inputs + [x]) == Streams(inputs) + [x.stream];
  }

  /** A stream that waits while it is given a slot is in both tables. */
  lemma HeldTwice(inputs: seq<Input>, pending: seq<Input>, x: Input)
    requires x.stream in Streams(pending)
    ensures !StreamsOk(inputs + [x], pending)
  {
    assert Streams(inputs + [x])[|inputs|] == x.stream;
  }

  lemma StreamQueues(inputs: seq<Input>, pending: seq<Input>, x: Input)
    requires StreamsOk(inputs, pending) && x.slot.None? && x.stream !in Streams(inputs)
    ensures StreamsOk(inputs, Queued(pending, x)) && Queued(pending, x) != []
  {
  }

  /** The k-th active stream gives its slot to the i-th waiting one and joins the end of the queue. */
  function SwappedIn(inputs: seq<Input>, pending: seq<Input>, k: nat, i: nat): seq<Input>
    requires k < |inputs| && i < |pending|
  {
    WithoutAt(inputs, k) + [pending[i].(slot := inputs[k].slot)]
  }

  function SwappedOut(inputs: seq<Input>, pending: seq<Input>, k: nat, i: nat): seq<Input>
    requires k < |inputs| && i < |pending|
  {
    WithoutAt(pending, i) + [inputs[k].(slot := None)]
  }

  function Forget(l: seq<Input>, stream: StreamId): seq<Input> {
    var i := Position(l, stream);
    if i >= 0 then WithoutAt(l, i) else l
  }

  lemma Unplaced(inputs: seq<Input>, pending: seq<Input>, i: nat)
    requires StreamsOk(inputs, pending) && i < |pending|
    ensures !AllPlaced(inputs + [pending[i]])
  {
    assert (inputs + [pending[i]])[|inputs|] == pending[i] && pending[i].slot.None?;
  }

  /** The stream that comes in keeps its media and count and goes last among the active ones; the one that goes out
      keeps its own and goes to the end of the queue; everyone else keeps their order and all they had. */
  lemma SwapOrder(inputs: seq<Input>, pending: seq<Input>, k: nat, i: nat)
    requires k < |inputs| && i < |pending|
    ensures var x, y := inputs[k], pending[i];
            var now, wait := SwappedIn(inputs, pending, k, i), SwappedOut(inputs, pending, k, i);
            && |now| == |inputs| && |wait| == |pending|
            && now[|now| - 1] == Input(y.stream, x.slot, y.media, y.primaryCount)
            && wait[|wait| - 1] == Input(x.stream, None, x.media, x.primaryCount)
            && (forall j :: 0 <= j < |now| - 1 ==> now[j] == inputs[if j < k then j else j + 1])
            && (forall j :: 0 <= j < |wait| - 1 ==> wait[j] == pending[if j < i then j else j + 1])
  {
  }

  /** First come, first served: a newcomer waits behind everyone, and a stream that waits already stays where it is with
      what it brings now. */
  lemma QueueOrder(pending: seq<Input>, x: Input)
    requires Distinct(Streams(pending))
    ensures var q := Queued(pending, x);
            && Streams(q) == Streams(pending) + (if x.stream in Streams(pending) then [] else [x.stream])
            && forall j :: 0 <= j < |q| ==> q[j] == if q[j].stream == x.stream then x else pending[j]
  {
    var i := Position(pending, x.stream);
    var q := Queued(pending, x);
    if i >= 0 {
      assert Streams(q) == Streams(pending);
      forall j | 0 <= j < |q| ensures q[j] == if q[j].stream == x.stream then x else pending[j] {
        assert Streams(pending)[j] == pending[j].stream && Streams(pending)[i] == x.stream;
      }
    } else {
      assert Streams(q) == Streams(pending) + [x.stream];
      forall j | 0 <= j < |pending| ensures pending[j].stream != x.stream {
        assert Streams(pending)[j] == pending[j].stream;
      }
    }
  }

  /** One stream counts one more, and nothing else changes. */
  lemma CountedIs(inputs: seq<Input>, stream: StreamId)
    requires Distinct(Streams(inputs))
    ensures var c := Counted(inputs, stream);
            && |c| == |inputs|
            && forall j :: 0 <= j < |c| ==>
                 && c[j].stream == inputs[j].stream && c[j].slot == inputs[j].slot && c[j].media == inputs[j].media
                 && c[j].primaryCount == inputs[j].primaryCount + if inputs[j].stream == stream then 1 else 0
  {
    forall j | 0 <= j < |inputs| ensures inputs[j].stream == stream <==> j == Position(inputs, stream) {
      assert Streams(inputs)[j] == inputs[j].stream;
      assert Position(inputs, stream) >= 0 ==> Streams(inputs)[Position(inputs, stream)] == stream;
    }
  }

  lemma SwapKeeps(inputs: seq<Input>, pending: seq<Input>, free: seq<nat>, max: nat, k: nat, i: nat)
    requires Partition(inputs, free, max) && StreamsOk(inputs, pending) && k < |inputs| && i < |pending|
    ensures Partition(SwappedIn(inputs, pending, k, i), free, max)
    ensures StreamsOk(SwappedIn(inputs, pending, k, i), SwappedOut(inputs, pending, k, i))
    ensures multiset(Slots(SwappedIn(inputs, pending, k, i))) == multiset(Slots(inputs))
    ensures forall s :: (s in Streams(SwappedIn(inputs, pending, k, i)) || s in Streams(SwappedOut(inputs, pending, k, i)))
                        <==> (s in Streams(inputs) || s in Streams(pending))
  {
    var x, y := inputs[k], pending[i];
    SlotsWithout(inputs, k);
    StreamsWithout(inputs, k);
    StreamsWithout(pending, i);
    SlotsAppend(WithoutAt(inputs, k), y.(slot := x.slot));
    assert Streams(SwappedIn(inputs, pending, k, i)) == Streams(WithoutAt(inputs, k)) + [y.stream];
    assert Streams(SwappedOut(inputs, pending, k, i)) == Streams(WithoutAt(pending, i)) + [x.stream];
    assert Streams(inputs)[k] == x.stream && Streams(pending)[i] == y.stream;
    assert y.stream !in Streams(inputs) && x.stream !in Streams(pending);
  }

  /** The stream that comes in takes over the slot of the one that goes out. */
  lemma SwapTakesOver(inputs: seq<Input>, pending: seq<Input>, k: nat, i: nat)
    requires AllPlaced(inputs) && StreamsOk(inputs, pending) && k < |inputs| && i < |pending|
    ensures var now := SwappedIn(inputs, pending, k, i);
            && AllPlaced(now) && pending[i].stream in Streams(now)
            && SlotOf(now, pending[i].stream) == inputs[k].slot.value
  {
    var now := SwappedIn(inputs, pending, k, i);
    var s := pending[i].stream;
    assert Streams(pending)[i] == s;
    assert Streams(now)[|now| - 1] == s;
    assert forall j :: 0 <= j < |now| - 1 ==> now[j] in inputs && now[j].stream in Streams(inputs);
    assert s !in Streams(inputs);
  }

  lemma MultisetWithoutAt(l: seq<nat>, i: nat)
    requires i < |l|
    ensures multiset(l) == multiset(WithoutAt(l, i)) + multiset{l[i]}
  {
    assert l == l[..i] + [l[i]] + l[i + 1..];
  }

  /** In a partition no slot occurs twice, and every slot is below the maximum. */
  lemma PartitionDistinct(inputs: seq<Input>, free: seq<nat>, max: nat)
    requires Partition(inputs, free, max)
    ensures Distinct(Slots(inputs)) && Distinct(free)
    ensures forall i :: i in Slots(inputs) ==> i < max && i !in free
    ensures forall i :: i in free ==> i < max
    ensures forall i :: 0 <= i < max ==> i in Slots(inputs) || i in free
    ensures |inputs| + |free| == max
  {
    var a: seq<nat> := Slots(inputs);
    var full: seq<nat> := UpTo(max);
    forall i: nat ensures multiset(full)[i] == if 0 <= i < max then 1 else 0 { UpToOnce(max, i); }
    forall i: nat ensures multiset(a)[i] <= 1 && multiset(free)[i] <= 1 {
      assert (multiset(a) + multiset(free))[i] == multiset(full)[i];
    }
    OnceMeansDistinct(a);
    OnceMeansDistinct(free);
    assert |multiset(a) + multiset(free)| == |a| + |free|;
    forall i: nat | i in a ensures i < max && i !in free { assert multiset(full)[i] > 0; }
    forall i: nat | i in free ensures i < max { assert multiset(full)[i] > 0; }
    forall i: nat | i < max ensures i in a || i in free { assert multiset(full)[i] == 1; }
  }

  lemma {:induction false} UpToOnce(n: nat, i: nat)
    ensures multiset(UpTo(n))[i] == if 0 <= i < n then 1 else 0
  {
    if n > 0 {
      UpToOnce(n - 1, i);
      assert UpTo(n) == UpTo(n - 1) + [n - 1];
    }
  }

  lemma {:induction false} OnceMeansDistinct(l: seq<nat>)
    requires forall i: nat :: multiset(l)[i] <= 1
    ensures Distinct(l)
  {
    if l != [] {
      var init: seq<nat>, last := l[..|l| - 1], l[|l| - 1];
      assert l == init + [last];
      assert last !in init by { assert multiset(l)[last] == multiset(init)[last] + 1; }
      forall i: nat ensures multiset(init)[i] <= 1 { assert multiset(l)[i] == multiset(init)[i] + if i == last then 1 else 0; }
      OnceMeansDistinct(init);
    }
  }

  // ----- the manager

  class InputManager {
    const maxInput: nat
    var inputs: seq<Input>
    var pendingInputs: seq<Input>
    var freeIndex: seq<nat>

    ghost predicate Valid()
      reads this
    {
      && maxInput > 0
      && Partition(inputs, freeIndex, maxInput)
      && StreamsOk(inputs, pendingInputs)
    }

    /** Nobody waits while a slot is free. */
    predicate Settled()
      reads this
    {
      pendingInputs != [] ==> freeIndex == []
    }

    constructor (wanted: int)
      ensures Valid() && Settled() && inputs == [] && pendingInputs == []
      ensures maxInput == if wanted <= 0 then 100 else wanted
      ensures forall i :: 0 <= i < |freeIndex| ==> freeIndex[i] == maxInput - 1 - i
    {
      var max := if wanted <= 0 then 100 else wanted;
      maxInput := max;
      inputs, pendingInputs := [], [];
      freeIndex := seq(max, i => if 0 <= i < max then max - 1 - i else 0);
      new;
      ReversedSame(freeIndex, maxInput);
    }

    predicate IsPending(stream: StreamId)
      reads this
    {
      stream in Streams(pendingInputs)
    }

    predicate IsActive(stream: StreamId)
      reads this
    {
      stream in Streams(inputs)
    }

    /** Takes the slot on top of the stack, or queues the stream when there is none. */
    method Add(stream: StreamId, media: Media) returns (slot: Option<nat>)
      requires Valid()
      modifies this
      ensures Valid() <==> !(old(IsPending(stream)) && old(freeIndex) != [])
      ensures old(Settled()) ==> Settled()
      ensures old(IsActive(stream)) ==>
                slot == None && inputs == old(inputs) && pendingInputs == old(pendingInputs) && freeIndex == old(freeIndex)
      ensures !old(IsActive(stream)) && old(freeIndex) != [] ==>
                && slot == Some(old(freeIndex)[|old(freeIndex)| - 1])
                && inputs == old(inputs) + [Input(stream, slot, media, 0)]
                && freeIndex == old(freeIndex)[..|old(freeIndex)| - 1] && pendingInputs == old(pendingInputs)
      ensures !old(IsActive(stream)) && old(freeIndex) == [] ==>
                && slot == None && inputs == old(inputs) && freeIndex == []
                && pendingInputs == Queued(old(pendingInputs), Input(stream, None, media, 0))
    {
      if Position(inputs, stream) >= 0 {
        return None;
      }
      if freeIndex != [] {
        var last := |freeIndex| - 1;
        slot := Some(freeIndex[last]);
        var x := Input(stream, slot, media, 0);
        if IsPending(stream) {
          HeldTwice(inputs, pendingInputs, x);
        } else {
          StreamEnters(inputs, pendingInputs, freeIndex, maxInput, x);
        }
        freeIndex := freeIndex[..last];
        inputs := inputs + [x];
      } else {
        slot := None;
        var x := Input(stream, None, media, 0);
        StreamQueues(inputs, pendingInputs, x);
        pendingInputs := Queued(pendingInputs, x);
      }
    }

    /** Gives the stream's slot back, or takes it out of the queue. */
    method Remove(stream: StreamId) returns (removed: Option<Input>)
      requires Valid()
      modifies this
      ensures Valid()
      ensures old(IsActive(stream)) ==>
                var i := Position(old(inputs), stream);
                && removed == Some(old(inputs)[i]) && inputs == WithoutAt(old(inputs), i)
                && freeIndex == old(freeIndex) + [old(inputs)[i].slot.value] && pendingInputs == old(pendingInputs)
      ensures old(IsPending(stream)) ==>
                var i := Position(old(pendingInputs), stream);
                && removed == Some(old(pendingInputs)[i]) && pendingInputs == WithoutAt(old(pendingInputs), i)
                && freeIndex == old(freeIndex) && inputs == old(inputs)
      ensures !old(IsActive(stream)) && !old(IsPending(stream)) ==>
                removed == None && inputs == old(inputs) && pendingInputs == old(pendingInputs) && freeIndex == old(freeIndex)
    {
      InOneTable(inputs, pendingInputs, stream);
      if Position(inputs, stream) >= 0 {
        var x := TakeActive(Position(inputs, stream));
        removed := Some(x);
      } else if Position(pendingInputs, stream) >= 0 {
        var x := TakePending(Position(pendingInputs, stream));
        removed := Some(x);
      } else {
        removed := None;
      }
    }

    method TakeActive(i: nat) returns (x: Input)
      requires Valid() && i < |inputs|
      modifies this
      ensures Valid() && x == old(inputs)[i] && x.slot.Some?
      ensures inputs == WithoutAt(old(inputs), i) && freeIndex == old(freeIndex) + [x.slot.value]
      ensures pendingInputs == old(pendingInputs)
    {
      x := inputs[i];
      ActiveLeaves(inputs, pendingInputs, freeIndex, maxInput, i);
      inputs := WithoutAt(inputs, i);
      freeIndex := freeIndex + [x.slot.value];
    }

    method TakePending(j: nat) returns (x: Input)
      requires Valid() && j < |pendingInputs|
      modifies this
      ensures Valid() && x == old(pendingInputs)[j]
      ensures pendingInputs == WithoutAt(old(pendingInputs), j) && inputs == old(inputs) && freeIndex == old(freeIndex)
    {
      x := pendingInputs[j];
      PendingLeaves(inputs, pendingInputs, j);
      pendingInputs := WithoutAt(pendingInputs, j);
    }

    /** The first waiting stream takes the given free slot. */
    method PromotePendingStream(slot: nat) returns (promoted: Option<Input>)
      requires Valid()
      modifies this
      ensures Valid()
      ensures old(slot !in freeIndex || pendingInputs == []) ==>
                promoted == None && inputs == old(inputs) && pendingInputs == old(pendingInputs) && freeIndex == old(freeIndex)
      ensures old(slot in freeIndex && pendingInputs != []) ==>
                && promoted == Some(old(pendingInputs)[0].(slot := Some(slot)))
                && inputs == old(inputs) + [promoted.value] && pendingInputs == old(pendingInputs)[1..]
                && multiset(freeIndex) == multiset(old(freeIndex)) - multiset{slot} && |freeIndex| == |old(freeIndex)| - 1
    {
      promoted := None;
      if slot in freeIndex && pendingInputs != [] {
        var pos := IndexOf(freeIndex, slot);
        var p := pendingInputs[0].(slot := Some(slot));
        PendingEnters(inputs, pendingInputs, freeIndex, maxInput, 0, pos);
        MultisetWithoutAt(freeIndex, pos);
        assert WithoutAt(pendingInputs, 0) == pendingInputs[1..];
        inputs := inputs + [p];
        pendingInputs := pendingInputs[1..];
        freeIndex := WithoutAt(freeIndex, pos);
        promoted := Some(p);
      }
    }

    /** The active stream that gives way when none is named. */
    method LeastPrimary() returns (k: nat)
      requires inputs != []
      ensures IsLeastPrimary(inputs, k)
    {
      k := 0;
      for i := 1 to |inputs|
        invariant k < i
        invariant forall j :: 0 <= j < i ==> inputs[k].primaryCount <= inputs[j].primaryCount
        invariant forall j :: 0 <= j < k ==> inputs[k].primaryCount < inputs[j].primaryCount
      {
        if inputs[i].primaryCount < inputs[k].primaryCount {
          k := i;
        }
      }
    }

    /** Puts a waiting stream in the slot of an active one, named or else the least often primary, which waits instead. */
    method Enable(stream: StreamId, toPending: Option<StreamId>) returns (slot: Option<nat>, threw: bool, ghost k: nat)
      requires Valid()
      modifies this
      ensures threw <==> old(IsPending(stream)) && toPending.Some? && toPending.value != stream && !old(IsActive(toPending.value))
      ensures (Valid() <==> !threw) && freeIndex == old(freeIndex)
      ensures threw ==>
                && slot == None && inputs == old(inputs) + [old(pendingInputs)[Position(old(pendingInputs), stream)]]
                && pendingInputs == Forget(Forget(old(pendingInputs), toPending.value), stream)
      ensures old(!IsPending(stream) || (toPending.None? && inputs == [])) || toPending == Some(stream) ==>
                slot == None && inputs == old(inputs) && pendingInputs == old(pendingInputs)
      ensures !threw && old(IsPending(stream) && inputs != []) && toPending != Some(stream) ==>
                && k < |old(inputs)| && slot == old(inputs)[k].slot
                && (if toPending.Some? then old(inputs)[k].stream == toPending.value else IsLeastPrimary(old(inputs), k))
                && inputs == SwappedIn(old(inputs), old(pendingInputs), k, Position(old(pendingInputs), stream))
                && pendingInputs == SwappedOut(old(inputs), old(pendingInputs), k, Position(old(pendingInputs), stream))
      ensures !threw ==>
                && multiset(Slots(inputs)) == multiset(Slots(old(inputs)))
                && forall s :: (IsActive(s) || IsPending(s)) == old(IsActive(s) || IsPending(s))
    {
      slot, threw, k := None, false, 0;
      var i := Position(pendingInputs, stream);
      if i == -1 || toPending == Some(stream) || (toPending.None? && inputs == []) {
        return;
      }
      var v: nat := 0;
      if toPending.Some? {
        if Position(inputs, toPending.value) == -1 {
          threw := true;
          Unplaced(inputs, pendingInputs, i);
          inputs := inputs + [pendingInputs[i]];
          pendingInputs := Forget(Forget(pendingInputs, toPending.value), stream);
          return;
        }
        v := Position(inputs, toPending.value);
      } else {
        v := LeastPrimary();
      }
      k := v;
      SwapKeeps(inputs, pendingInputs, freeIndex, maxInput, v, i);
      slot := inputs[v].slot;
      inputs, pendingInputs := SwappedIn(inputs, pendingInputs, v, i), SwappedOut(inputs, pendingInputs, v, i);
    }

    /** Counts one more time that the stream was made primary. */
    method CountPrimary(stream: StreamId)
      requires Valid()
      modifies this`inputs
      ensures Valid()
      ensures inputs == Counted(old(inputs), stream)
      ensures Streams(inputs) == Streams(old(inputs)) && Slots(inputs) == Slots(old(inputs))
    {
      var i := Position(inputs, stream);
      if i >= 0 {
        ghost var was := inputs;
        inputs := inputs[i := inputs[i].(primaryCount := inputs[i].primaryCount + 1)];
        assert Streams(inputs) == Streams(was) && Slots(inputs) == Slots(was);
      }
    }

    method GetStreamFromInput(slot: nat) returns (stream: Option<StreamId>)
      requires Valid()
      ensures stream.None? <==> slot !in Slots(inputs)
      ensures stream.Some? ==> IsActive(stream.value) && inputs[Position(inputs, stream.value)].slot == Some(slot)
    {
      for i := 0 to |inputs|
        invariant slot !in Slots(inputs)[..i]
      {
        if inputs[i].slot == Some(slot) {
          assert Streams(inputs)[i] == inputs[i].stream && Slots(inputs)[i] == slot;
          return Some(inputs[i].stream);
        }
      }
      assert Slots(inputs)[..|inputs|] == Slots(inputs);
      stream := None;
    }
  }

  lemma ReversedSame(l: seq<nat>, n: nat)
    requires |l| == n && forall i :: 0 <= i < n ==> l[i] == n - 1 - i
    ensures multiset(l) == multiset(UpTo(n))
  {
    forall i: nat ensures multiset(l)[i] == multiset(UpTo(n))[i] {
      UpToOnce(n, i);
      DownOnce(l, n, i);
    }
  }

  lemma {:induction false} DownOnce(l: seq<nat>, n: nat, i: nat)
    requires |l| <= n && forall k :: 0 <= k < |l| ==> l[k] == n - 1 - k
    ensures multiset(l)[i] == if n - |l| <= i < n then 1 else 0
  {
    if l != [] {
      var init := l[..|l| - 1];
      DownOnce(init, n, i);
      assert l == init + [l[|l| - 1]];
    }
  }
}
