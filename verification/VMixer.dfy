/** The video mixer's operations on its slots and its layout. Whether the native engine accepts an input is a
    parameter of each operation that asks it. */
module VMixer {
  import opened Options
  import opened Sequences
  import opened InputManager
  import opened Layout

  datatype Reply = Done | Refused | Threw

  ghost predicate ShowsOnly(list: seq<nat>, inputs: seq<Input>) {
    AllPlaced(inputs) && forall i <- list :: i in Slots(inputs)
  }

  ghost predicate ShowsAll(list: seq<nat>, inputs: seq<Input>) {
    AllPlaced(inputs) && multiset(list) == multiset(Slots(inputs))
  }

  predicate Known(stream: StreamId, inputs: seq<Input>, pending: seq<Input>) {
    stream in Streams(inputs) || stream in Streams(pending)
  }

  lemma SameMembers(a: seq<nat>, b: seq<nat>)
    requires multiset(a) == multiset(b)
    ensures forall i: nat :: i in a <==> i in b
  {
    forall i: nat ensures i in a <==> i in b {
      assert i in a <==> i in multiset(a);
      assert i in b <==> i in multiset(b);
    }
  }

  /** What is shown does not depend on which streams hold the slots. */
  lemma SameSlots(list: seq<nat>, was: seq<Input>, now: seq<Input>)
    requires AllPlaced(was) && AllPlaced(now) && multiset(Slots(was)) == multiset(Slots(now))
    ensures ShowsOnly(list, was) <==> ShowsOnly(list, now)
    ensures ShowsAll(list, was) <==> ShowsAll(list, now)
  {
    SameMembers(Slots(was), Slots(now));
  }

  lemma Reordered(list: seq<nat>, other: seq<nat>, inputs: seq<Input>)
    requires multiset(list) == multiset(other)
    ensures ShowsOnly(list, inputs) <==> ShowsOnly(other, inputs)
    ensures ShowsAll(list, inputs) <==> ShowsAll(other, inputs)
  {
    SameMembers(list, other);
  }

  lemma HiddenIs(list: seq<nat>, slot: nat)
    requires Distinct(list)
    ensures forall i: nat :: i in Hidden(list, slot) <==> i in list && i != slot
    ensures multiset(Hidden(list, slot)) == multiset(list) - multiset{slot}
  {
    if slot in list {
      WithoutAtIs(list, IndexOf(list, slot));
      MultisetWithoutAt(list, IndexOf(list, slot));
    } else {
      assert multiset(list)[slot] == 0;
    }
  }

  /** Hiding a slot that stays active loses the agreement. */
  lemma HidesActive(list: seq<nat>, inputs: seq<Input>, slot: nat)
    requires Distinct(list) && ShowsOnly(list, inputs) && slot in Slots(inputs)
    ensures ShowsOnly(Hidden(list, slot), inputs) && !ShowsAll(Hidden(list, slot), inputs)
  {
    HiddenIs(list, slot);
    assert slot in multiset(Slots(inputs)) && slot !in multiset(Hidden(list, slot));
  }

  /** Hiding a slot that was given back keeps it. */
  lemma HidesFreed(list: seq<nat>, was: seq<Input>, left: seq<Input>, slot: nat)
    requires Distinct(list) && ShowsOnly(list, was) && AllPlaced(left)
    requires multiset(Slots(was)) == multiset(Slots(left)) + multiset{slot}
    ensures ShowsOnly(Hidden(list, slot), left)
    ensures ShowsAll(list, was) ==> ShowsAll(Hidden(list, slot), left)
  {
    HiddenIs(list, slot);
    forall i: nat | i in Hidden(list, slot) ensures i in Slots(left) {
      assert i in multiset(Slots(was));
    }
  }

  lemma AddedStreams(inputs: seq<Input>, pending: seq<Input>, x: Input)
    ensures forall s :: Known(s, inputs + [x], pending) <==> Known(s, inputs, pending) || s == x.stream
    ensures forall s :: Known(s, inputs, Queued(pending, x)) <==> Known(s, inputs, pending) || s == x.stream
  {
    assert Streams(inputs + [x]) == Streams(inputs) + [x.stream];
    if x.stream in Streams(pending) {
      assert Streams(Queued(pending, x)) == Streams(pending);
    } else {
      assert Streams(pending + [x]) == Streams(pending) + [x.stream];
    }
  }

  lemma OnlyPosition(inputs: seq<Input>, k: nat, stream: StreamId)
    requires Distinct(Streams(inputs)) && k < |inputs| && inputs[k].stream == stream
    ensures Position(inputs, stream) == k
  {
  }

  lemma RemovedStreams(inputs: seq<Input>, pending: seq<Input>, i: nat)
    requires StreamsOk(inputs, pending)
    ensures i < |inputs| ==>
              forall s :: Known(s, WithoutAt(inputs, i), pending) <==> Known(s, inputs, pending) && s != inputs[i].stream
    ensures i < |pending| ==>
              forall s :: Known(s, inputs, WithoutAt(pending, i)) <==> Known(s, inputs, pending) && s != pending[i].stream
  {
    if i < |inputs| {
      StreamsWithout(inputs, i);
      assert Streams(inputs)[i] == inputs[i].stream;
    }
    if i < |pending| {
      StreamsWithout(pending, i);
      assert Streams(pending)[i] == pending[i].stream;
    }
  }

  /** The first in the queue takes over a slot. */
  lemma PromotedStreams(left: seq<Input>, pending: seq<Input>, slot: nat)
    requires AllPlaced(left) && pending != []
    ensures var now := left + [pending[0].(slot := Some(slot))];
            && AllPlaced(now) && multiset(Slots(now)) == multiset(Slots(left)) + multiset{slot}
            && forall s :: Known(s, now, pending[1..]) <==> Known(s, left, pending)
  {
    var x := pending[0].(slot := Some(slot));
    SlotsAppend(left, x);
    assert Streams(left + [x]) == Streams(left) + [x.stream];
    assert Streams(pending) == [x.stream] + Streams(pending[1..]);
  }

  /** The stream has taken the slot of the one that now waits: the one named, or else the least often primary. */
  ghost predicate TradedPlaces(was: seq<Input>, waited: seq<Input>, now: seq<Input>, wait: seq<Input>,
                               stream: StreamId, toPending: Option<StreamId>)
  {
    && stream in Streams(waited)
    && exists k: nat | k < |was| ::
         && (if toPending.Some? then was[k].stream == toPending.value else IsLeastPrimary(was, k))
         && now == SwappedIn(was, waited, k, Position(waited, stream))
         && wait == SwappedOut(was, waited, k, Position(waited, stream))
  }

  /** The first in the queue, if any, with the slot it is given. */
  function Promoted(pending: seq<Input>, slot: nat): seq<Input> {
    if pending == [] then [] else [pending[0].(slot := Some(slot))]
  }

  function Rest(pending: seq<Input>): seq<Input> {
    if pending == [] then [] else pending[1..]
  }

  /** The waiting stream has taken the given slot from the stream that held it, which now waits at the end of the queue. */
  ghost predicate GaveWay(was: seq<Input>, waited: seq<Input>, now: seq<Input>, wait: seq<Input>,
                          stream: StreamId, slot: nat)
  {
    && AllPlaced(was)
    && exists owner :: owner in Streams(was) && SlotOf(was, owner) == slot
                       && TradedPlaces(was, waited, now, wait, stream, Some(owner))
  }

  /** The slot and whatever stood at place r have been swapped, or nothing has moved. */
  ghost predicate SwappedInto(was: seq<nat>, now: seq<nat>, slot: nat, r: nat, done: bool) {
    if done then slot in was && r < |was| && now == Swapped(was, IndexOf(was, slot), r) else now == was
  }

  /** The slot has been swapped with the first one shown, unless it is not shown at all. */
  function ToFront(shown: seq<nat>, slot: nat): seq<nat> {
    if slot in shown then Swapped(shown, IndexOf(shown, slot), 0) else shown
  }

  class VMixer {
    const slots: InputManager
    const layout: LayoutProcessor

    /** The slot bookkeeping is right, nobody waits while a slot is free, and the layout shows only active slots. */
    ghost predicate Valid()
      reads this, slots, layout
    {
      slots.Valid() && slots.Settled() && layout.Valid() && ShowsOnly(layout.inputList, slots.inputs)
    }

    /** The layout shows exactly the active slots. */
    ghost predicate Agrees()
      reads this, slots, layout
    {
      ShowsAll(layout.inputList, slots.inputs)
    }

    predicate Has(stream: StreamId)
      reads this, slots
    {
      Known(stream, slots.inputs, slots.pendingInputs)
    }

    constructor (maxInput: int, templates: seq<seq<Region>>)
      ensures Valid() && Agrees() && fresh(slots) && fresh(layout)
      ensures slots.inputs == [] && slots.pendingInputs == []
    {
      slots := new InputManager(maxInput);
      layout := new LayoutProcessor(templates);
    }

    method AddInput(stream: StreamId, media: Media, accepted: bool) returns (ok: bool)
      requires Valid()
      modifies slots, layout
      ensures Valid()
      ensures forall s :: Has(s) <==> old(Has(s)) || s == stream
      ensures ok <==> old(slots.IsActive(stream) || slots.freeIndex == []) || accepted
      ensures old(slots.IsActive(stream) || slots.freeIndex == []) ==>
                && slots.inputs == old(slots.inputs) && layout.inputList == old(layout.inputList)
                && slots.freeIndex == old(slots.freeIndex)
                && slots.pendingInputs == if old(slots.IsActive(stream)) then old(slots.pendingInputs)
                                          else Queued(old(slots.pendingInputs), Input(stream, None, media, 0))
      ensures !old(slots.IsActive(stream) || slots.freeIndex == []) ==>
                var slot := old(slots.freeIndex)[|old(slots.freeIndex)| - 1];
                && slots.inputs == old(slots.inputs) + [Input(stream, Some(slot), media, 0)]
                && slots.freeIndex == old(slots.freeIndex)[..|old(slots.freeIndex)| - 1]
                && slots.pendingInputs == old(slots.pendingInputs)
                && layout.inputList == old(layout.inputList) + if accepted then [slot] else []
      ensures old(Agrees()) ==> (Agrees() <==> ok)
    {
      ghost var was, waited, shown := slots.inputs, slots.pendingInputs, layout.inputList;
      PartitionDistinct(was, slots.freeIndex, slots.maxInput);
      AddedStreams(was, waited, Input(stream, None, media, 0));
      var slot := slots.Add(stream, media);
      ok := true;
      if slot.Some? {
        var x := Input(stream, slot, media, 0);
        SlotsAppend(was, x);
        AddedStreams(was, waited, x);
        assert slot.value !in Slots(was);
        assert slot.value == Slots(slots.inputs)[|was|];
        if accepted {
          layout.AddInput(slot.value, false);
          assert layout.inputList == shown + [slot.value];
        } else {
          ok := false;
          HiddenIs(shown, slot.value);
          assert ShowsOnly(shown, slots.inputs);
          HidesActive(shown, slots.inputs, slot.value);
        }
      }
    }

    /** An active stream's slot goes to the first waiting stream, or is free again. */
    method RemoveInput(stream: StreamId, accepted: bool)
      requires Valid()
      modifies slots, layout
      ensures Valid()
      ensures forall s :: Has(s) <==> old(Has(s)) && s != stream
      ensures forall s :: slots.IsPending(s) ==> old(slots.IsPending(s))
      ensures |slots.pendingInputs| ==
              |old(slots.pendingInputs)| - if old(Has(stream) && slots.pendingInputs != []) then 1 else 0
      ensures !old(slots.IsActive(stream)) ==>
                && slots.inputs == old(slots.inputs) && layout.inputList == old(layout.inputList)
                && slots.freeIndex == old(slots.freeIndex)
                && slots.pendingInputs == Forget(old(slots.pendingInputs), stream)
      ensures old(slots.IsActive(stream)) ==>
                var slot := old(SlotOf(slots.inputs, stream));
                var left := WithoutAt(old(slots.inputs), old(Position(slots.inputs, stream)));
                && slots.inputs == left + Promoted(old(slots.pendingInputs), slot)
                && slots.pendingInputs == Rest(old(slots.pendingInputs))
                && (old(slots.pendingInputs) == [] ==> slots.freeIndex == old(slots.freeIndex) + [slot])
                && layout.inputList == if old(slots.pendingInputs) != [] && accepted then old(layout.inputList)
                                       else Hidden(old(layout.inputList), slot)
      ensures old(Agrees()) ==>
                (Agrees() <==> (old(slots.IsActive(stream) && slots.pendingInputs != []) ==> accepted))
    {
      ghost var was := slots.inputs;
      var slot := TakeOut(stream);
      if slot.Some? {
        Reuse(slot.value, was, accepted);
      }
    }

    method TakeOut(stream: StreamId) returns (slot: Option<nat>)
      requires Valid()
      modifies slots
      ensures slots.Valid() && (slot.None? ==> slots.Settled())
      ensures forall s :: Has(s) <==> old(Has(s)) && s != stream
      ensures slot.Some? <==> old(slots.IsActive(stream))
      ensures slot.None? ==>
                && slots.inputs == old(slots.inputs) && slots.freeIndex == old(slots.freeIndex)
                && slots.pendingInputs == Forget(old(slots.pendingInputs), stream)
      ensures slot.Some? ==>
                && slot.value == old(SlotOf(slots.inputs, stream)) && slots.pendingInputs == old(slots.pendingInputs)
                && slots.inputs == WithoutAt(old(slots.inputs), old(Position(slots.inputs, stream)))
      ensures slot.Some? ==> slots.freeIndex == old(slots.freeIndex) + [slot.value]
      ensures slot.Some? ==> multiset(Slots(old(slots.inputs))) == multiset(Slots(slots.inputs)) + multiset{slot.value}
      ensures forall s :: slots.IsPending(s) ==> old(slots.IsPending(s))
      ensures |slots.pendingInputs| == |old(slots.pendingInputs)| - if old(slots.IsPending(stream)) then 1 else 0
    {
      ghost var was, waited := slots.inputs, slots.pendingInputs;
      if stream in Streams(was) {
        RemovedStreams(was, waited, Position(was, stream));
        SlotsWithout(was, Position(was, stream));
      } else if stream in Streams(waited) {
        RemovedStreams(was, waited, Position(waited, stream));
      }
      var removed := slots.Remove(stream);
      slot := if removed.Some? then removed.value.slot else None;
    }

    /** A slot that `was` still holds and that has just been given back. */
    method Reuse(slot: nat, ghost was: seq<Input>, accepted: bool)
      requires slots.Valid() && layout.Valid() && slot in slots.freeIndex
      requires slots.pendingInputs != [] ==> |slots.freeIndex| == 1
      requires AllPlaced(was) && multiset(Slots(was)) == multiset(Slots(slots.inputs)) + multiset{slot}
      requires ShowsOnly(layout.inputList, was)
      modifies slots, layout
      ensures Valid()
      ensures forall s :: Has(s) <==> old(Has(s))
      ensures forall s :: slots.IsPending(s) ==> old(slots.IsPending(s))
      ensures |slots.pendingInputs| == if old(slots.pendingInputs) == [] then 0 else |old(slots.pendingInputs)| - 1
      ensures slots.inputs == old(slots.inputs) + Promoted(old(slots.pendingInputs), slot)
      ensures slots.pendingInputs == Rest(old(slots.pendingInputs))
      ensures old(slots.pendingInputs) == [] ==> slots.freeIndex == old(slots.freeIndex)
      ensures layout.inputList == if old(slots.pendingInputs) != [] && accepted then old(layout.inputList)
                                  else Hidden(old(layout.inputList), slot)
      ensures old(ShowsAll(layout.inputList, was)) ==> (Agrees() <==> (old(slots.pendingInputs) != [] ==> accepted))
    {
      ghost var left, waited, shown := slots.inputs, slots.pendingInputs, layout.inputList;
      var promoted := slots.PromotePendingStream(slot);
      if promoted.Some? {
        PromotedStreams(left, waited, slot);
        SameSlots(shown, was, slots.inputs);
        if !accepted {
          assert slot == Slots(slots.inputs)[|left|];
          HidesActive(shown, slots.inputs, slot);
          layout.RemoveInput(slot);
        }
      } else {
        HidesFreed(shown, was, left, slot);
        layout.RemoveInput(slot);
      }
    }

    /** The engine moves a slot over to the stream that now holds it. */
    method Switch(slot: nat, accepted: bool)
      requires Valid() && slot in Slots(slots.inputs)
      modifies layout
      ensures Valid()
      ensures if accepted then layout.inputList == old(layout.inputList) && layout.currentRegions == old(layout.currentRegions)
                && layout.layoutSolution == old(layout.layoutSolution)
              else layout.inputList == Hidden(old(layout.inputList), slot) && !Agrees()
    {
      if !accepted {
        HidesActive(layout.inputList, slots.inputs, slot);
        layout.RemoveInput(slot);
      }
    }

    /** Makes room for a waiting stream: the active stream named, or the one least often primary, waits instead. */
    method Exchange(stream: StreamId, toPending: Option<StreamId>, accepted: bool)
      requires Valid() && slots.IsPending(stream) && (toPending.Some? ==> slots.IsActive(toPending.value))
      modifies slots, layout
      ensures Valid() && slots.IsActive(stream)
      ensures forall s :: Has(s) <==> old(Has(s))
      ensures toPending.Some? ==> SlotOf(slots.inputs, stream) == old(SlotOf(slots.inputs, toPending.value))
      ensures TradedPlaces(old(slots.inputs), old(slots.pendingInputs), slots.inputs, slots.pendingInputs, stream, toPending)
      ensures if accepted then layout.inputList == old(layout.inputList) && layout.currentRegions == old(layout.currentRegions)
                && layout.layoutSolution == old(layout.layoutSolution)
              else layout.inputList == Hidden(old(layout.inputList), SlotOf(slots.inputs, stream)) && !Agrees()
      ensures old(Agrees()) && accepted ==> Agrees()
    {
      ghost var was := slots.inputs;
      var slot := TakeOver(stream, toPending);
      SameSlots(layout.inputList, was, slots.inputs);
      PartitionDistinct(slots.inputs, slots.freeIndex, slots.maxInput);
      Switch(slot, accepted);
    }

    method TakeOver(stream: StreamId, toPending: Option<StreamId>) returns (slot: nat)
      requires slots.Valid() && slots.Settled()
      requires slots.IsPending(stream) && (toPending.Some? ==> slots.IsActive(toPending.value))
      modifies slots
      ensures slots.Valid() && slots.Settled() && slots.IsActive(stream) && slot == SlotOf(slots.inputs, stream)
      ensures forall s :: Has(s) <==> old(Has(s))
      ensures multiset(Slots(slots.inputs)) == multiset(Slots(old(slots.inputs)))
      ensures toPending.Some? ==> slot == old(SlotOf(slots.inputs, toPending.value))
      ensures TradedPlaces(old(slots.inputs), old(slots.pendingInputs), slots.inputs, slots.pendingInputs, stream, toPending)
    {
      ghost var was, waited := slots.inputs, slots.pendingInputs;
      PartitionDistinct(was, slots.freeIndex, slots.maxInput);
      InOneTable(was, waited, stream);
      var taken, threw, k := slots.Enable(stream, toPending);
      SwapTakesOver(was, waited, k, Position(waited, stream));
      slot := taken.value;
      forall s ensures Has(s) <==> old(Has(s)) {
        assert (slots.IsActive(s) || slots.IsPending(s)) == old(slots.IsActive(s) || slots.IsPending(s));
      }
      if toPending.Some? {
        OnlyPosition(was, k, toPending.value);
      }
    }

    method SetPrimary(stream: StreamId, accepted: bool) returns (reply: Reply)
      requires Valid()
      modifies slots, layout
      ensures Valid()
      ensures forall s :: Has(s) <==> old(Has(s))
      ensures reply == if !old(Has(stream)) || (old(slots.IsPending(stream)) && !accepted) then Refused else Done
      ensures old(Has(stream)) ==> slots.IsActive(stream)
      ensures old(Agrees()) ==> (Agrees() <==> (old(slots.IsPending(stream)) ==> accepted))
      ensures old(Agrees()) && reply == Done ==> StandsIn(stream, 0)
      ensures old(slots.IsActive(stream)) ==>
                slots.inputs == Counted(old(slots.inputs), stream) && slots.pendingInputs == old(slots.pendingInputs)
      ensures old(slots.IsPending(stream)) ==>
                exists now ::
                  && TradedPlaces(old(slots.inputs), old(slots.pendingInputs), now, slots.pendingInputs, stream, None)
                  && slots.inputs == if accepted then Counted(now, stream) else now
      ensures old(Has(stream)) ==>
                var slot := SlotOf(slots.inputs, stream);
                layout.inputList == if reply == Done then ToFront(old(layout.inputList), slot)
                                    else Hidden(old(layout.inputList), slot)
    {
      if stream !in Streams(slots.inputs) && stream !in Streams(slots.pendingInputs) {
        return Refused;
      }
      if stream in Streams(slots.pendingInputs) {
        Exchange(stream, None, accepted);
        if !accepted {
          return Refused;
        }
      }
      MakePrimary(stream);
      reply := Done;
    }

    /** The stream is the k-th input of the layout, and region k shows it if there is such a region. */
    ghost predicate StandsIn(stream: StreamId, k: nat)
      reads this, slots, layout
    {
      && AllPlaced(slots.inputs) && slots.IsActive(stream)
      && k < |layout.inputList| && layout.inputList[k] == SlotOf(slots.inputs, stream)
      && (k < |layout.currentRegions| ==>
            k < |layout.layoutSolution| && layout.layoutSolution[k].input == Some(SlotOf(slots.inputs, stream)))
    }

    method MakePrimary(stream: StreamId)
      requires Valid() && slots.IsActive(stream)
      modifies slots, layout
      ensures Valid()
      ensures Streams(slots.inputs) == old(Streams(slots.inputs)) && slots.pendingInputs == old(slots.pendingInputs)
      ensures slots.inputs == Counted(old(slots.inputs), stream)
      ensures slots.IsActive(stream) && SlotOf(slots.inputs, stream) == old(SlotOf(slots.inputs, stream))
      ensures layout.inputList == ToFront(old(layout.inputList), SlotOf(slots.inputs, stream))
      ensures old(Agrees()) <==> Agrees()
      ensures old(Agrees()) ==> StandsIn(stream, 0)
    {
      ghost var was, shown := slots.inputs, layout.inputList;
      var slot := SlotOf(slots.inputs, stream);
      if slot in shown {
        SwappedSame(shown, IndexOf(shown, slot), 0);
        Reordered(shown, Swapped(shown, IndexOf(shown, slot), 0), was);
      } else {
        assert slot !in multiset(shown) && slot in multiset(Slots(was));
      }
      layout.SetPrimary(slot);
      slots.CountPrimary(stream);
      SameSlots(layout.inputList, was, slots.inputs);
    }

    predicate Occupied(regionId: string)
      reads layout
    {
      var r := RegionPosition(layout.currentRegions, regionId);
      r < |layout.currentRegions| && r < |layout.inputList|
    }

    method SetRegion(stream: StreamId, regionId: string, accepted: bool) returns (reply: Reply)
      requires Valid()
      modifies slots, layout
      ensures Valid()
      ensures forall s :: Has(s) <==> old(Has(s))
      ensures reply == Threw <==>
                old(slots.IsPending(stream) &&
                    RegionPosition(layout.currentRegions, regionId) == |layout.currentRegions| < |layout.inputList|)
      ensures !old(Has(stream)) ==> reply == Refused
      ensures old(slots.IsPending(stream)) ==> (reply == Done <==> old(Occupied(regionId)) && accepted)
      ensures old(slots.IsActive(stream) && Agrees()) ==>
                (reply == Done <==>
                 old(Occupied(regionId) || StandsIn(stream, RegionPosition(layout.currentRegions, regionId))))
      ensures old(Agrees()) ==>
                (Agrees() <==> (old(slots.IsPending(stream) && Occupied(regionId)) ==> accepted))
      ensures reply == Done ==> StandsIn(stream, old(RegionPosition(layout.currentRegions, regionId)))
      ensures old(slots.IsActive(stream)) ==>
                && slots.inputs == old(slots.inputs) && slots.pendingInputs == old(slots.pendingInputs)
                && SwappedInto(old(layout.inputList), layout.inputList, old(SlotOf(slots.inputs, stream)),
                               old(RegionPosition(layout.currentRegions, regionId)), reply == Done)
      ensures old(slots.IsPending(stream) && Occupied(regionId)) ==>
                var slot := old(layout.inputList)[old(RegionPosition(layout.currentRegions, regionId))];
                && GaveWay(old(slots.inputs), old(slots.pendingInputs), slots.inputs, slots.pendingInputs, stream, slot)
                && layout.inputList == if accepted then old(layout.inputList) else Hidden(old(layout.inputList), slot)
      ensures !old(slots.IsActive(stream)) && !old(slots.IsPending(stream) && Occupied(regionId)) ==>
                && slots.inputs == old(slots.inputs) && slots.pendingInputs == old(slots.pendingInputs)
                && layout.inputList == old(layout.inputList)
    {
      if stream !in Streams(slots.inputs) && stream !in Streams(slots.pendingInputs) {
        return Refused;
      }
      InOneTable(slots.inputs, slots.pendingInputs, stream);
      if stream in Streams(slots.pendingInputs) {
        reply := Occupy(stream, regionId, accepted);
      } else {
        reply := MoveTo(stream, regionId);
      }
    }

    /** A waiting stream takes the place of the one that stands in the region. */
    method Occupy(stream: StreamId, regionId: string, accepted: bool) returns (reply: Reply)
      requires Valid() && slots.IsPending(stream) && !slots.IsActive(stream)
      modifies slots, layout
      ensures Valid()
      ensures forall s :: Has(s) <==> old(Has(s))
      ensures reply == Threw <==>
                old(RegionPosition(layout.currentRegions, regionId) == |layout.currentRegions| < |layout.inputList|)
      ensures reply == Done <==> old(Occupied(regionId)) && accepted
      ensures old(Agrees()) ==> (Agrees() <==> (old(Occupied(regionId)) ==> accepted))
      ensures reply == Done ==> StandsIn(stream, old(RegionPosition(layout.currentRegions, regionId)))
      ensures old(Occupied(regionId)) ==>
                var slot := old(layout.inputList)[old(RegionPosition(layout.currentRegions, regionId))];
                && GaveWay(old(slots.inputs), old(slots.pendingInputs), slots.inputs, slots.pendingInputs, stream, slot)
                && layout.inputList == if accepted then old(layout.inputList) else Hidden(old(layout.inputList), slot)
      ensures !old(Occupied(regionId)) ==>
                && slots.inputs == old(slots.inputs) && slots.pendingInputs == old(slots.pendingInputs)
                && layout.inputList == old(layout.inputList)
    {
      var origin, threw := layout.GetInput(regionId);
      if threw {
        return Threw;
      }
      if origin.None? {
        return Refused;
      }
      var owner := slots.GetStreamFromInput(origin.value);
      TakePlace(stream, owner.value, accepted);
      reply := if accepted then Done else Refused;
    }

    method TakePlace(stream: StreamId, owner: StreamId, accepted: bool)
      requires Valid() && slots.IsPending(stream) && slots.IsActive(owner)
      modifies slots, layout
      ensures Valid() && slots.IsActive(stream)
      ensures forall s :: Has(s) <==> old(Has(s))
      ensures SlotOf(slots.inputs, stream) == old(SlotOf(slots.inputs, owner))
      ensures GaveWay(old(slots.inputs), old(slots.pendingInputs), slots.inputs, slots.pendingInputs, stream,
                      old(SlotOf(slots.inputs, owner)))
      ensures old(Agrees()) ==> (Agrees() <==> accepted)
      ensures !accepted ==> layout.inputList == Hidden(old(layout.inputList), old(SlotOf(slots.inputs, owner)))
      ensures accepted ==>
                layout.inputList == old(layout.inputList) && layout.currentRegions == old(layout.currentRegions)
                && layout.layoutSolution == old(layout.layoutSolution)
    {
      Exchange(stream, Some(owner), accepted);
    }

    method MoveTo(stream: StreamId, regionId: string) returns (reply: Reply)
      requires Valid() && slots.IsActive(stream)
      modifies layout
      ensures Valid() && layout.currentRegions == old(layout.currentRegions)
      ensures old(Agrees()) <==> Agrees()
      ensures reply == Done || reply == Refused
      ensures old(Agrees()) ==>
                (reply == Done <==>
                 old(Occupied(regionId) || StandsIn(stream, RegionPosition(layout.currentRegions, regionId))))
      ensures reply == Done ==> StandsIn(stream, RegionPosition(layout.currentRegions, regionId))
      ensures SwappedInto(old(layout.inputList), layout.inputList, SlotOf(slots.inputs, stream),
                          RegionPosition(layout.currentRegions, regionId), reply == Done)
    {
      ghost var shown := layout.inputList;
      var slot := SlotOf(slots.inputs, stream);
      var ok := layout.SpecifyInputRegion(slot, regionId);
      if layout.inputList != shown {
        var p, r := IndexOf(shown, slot), RegionPosition(layout.currentRegions, regionId);
        SwappedSame(shown, p, r);
        Reordered(shown, layout.inputList, slots.inputs);
      }
      reply := if ok then Done else Refused;
      if ShowsAll(shown, slots.inputs) {
        SameMembers(shown, Slots(slots.inputs));
      }
    }

    /** Everything goes, the queue first so that no removal promotes anyone. */
    method Deinit()
      requires Valid()
      modifies slots, layout
      ensures Valid() && Agrees()
      ensures slots.inputs == [] && slots.pendingInputs == [] && layout.inputList == []
      ensures |slots.freeIndex| == slots.maxInput
    {
      RemoveWaiting();
      RemoveActive();
      PartitionDistinct(slots.inputs, slots.freeIndex, slots.maxInput);
      NothingShown(layout.inputList, slots.inputs);
    }

    /** One of the removals that empty the mixer, where no answer of the engine matters any more. */
    method Discard(stream: StreamId)
      requires Valid()
      modifies slots, layout
      ensures Valid()
      ensures forall s :: Has(s) <==> old(Has(s)) && s != stream
      ensures forall s :: slots.IsPending(s) ==> old(slots.IsPending(s))
      ensures old(slots.pendingInputs) == [] ==> slots.pendingInputs == []
    {
      RemoveInput(stream, false);
    }

    method RemoveActive()
      requires Valid() && slots.pendingInputs == []
      modifies slots, layout
      ensures Valid() && slots.inputs == [] && slots.pendingInputs == []
    {
      var list := Streams(slots.inputs) + Streams(slots.pendingInputs);
      for i := 0 to |list|
        invariant Valid() && slots.pendingInputs == [] && forall s :: Has(s) ==> s in list
        invariant forall k :: 0 <= k < i ==> !Has(list[k])
      {
        Discard(list[i]);
      }
      NobodyIn([], slots.inputs, list);
    }

    method RemoveWaiting()
      requires Valid()
      modifies slots, layout
      ensures Valid() && slots.pendingInputs == []
    {
      var list := Streams(slots.inputs) + Streams(slots.pendingInputs);
      for i := 0 to |list|
        invariant Valid() && forall s :: Has(s) ==> s in list
        invariant forall k :: 0 <= k < i ==> !slots.IsPending(list[k])
      {
        if list[i] in Streams(slots.pendingInputs) {
          Discard(list[i]);
          assert !Has(list[i]);
        }
      }
      NobodyIn(slots.inputs, slots.pendingInputs, list);
    }
  }

  lemma NobodyIn(inputs: seq<Input>, pending: seq<Input>, list: seq<StreamId>)
    requires forall s :: Known(s, inputs, pending) ==> s in list
    requires forall k :: 0 <= k < |list| ==> list[k] !in Streams(pending)
    ensures pending == []
  {
    assert pending == [] || Known(Streams(pending)[0], inputs, pending);
  }

  lemma NothingShown(list: seq<nat>, inputs: seq<Input>)
    requires ShowsOnly(list, inputs) && inputs == []
    ensures list == [] && ShowsAll(list, inputs)
  {
    assert forall i: nat :: i !in list;
    EmptyList(list);
  }

  lemma EmptyList(list: seq<nat>)
    ensures (forall i: nat :: i !in list) ==> list == []
  {
    if list != [] {
      assert list[0] in list;
    }
  }
}
