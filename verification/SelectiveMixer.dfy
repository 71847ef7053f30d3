/** Mixing only the k loudest streams. The ranker gives each rank its own source; the native mixer knows an input by
    its owner and stream. */
module SelectiveMixer {
  import opened Options
  import opened Sequences

  type StreamId = string
  type Owner = string
  type Codec = string

  /** The rank of nobody. */
  const NOBODY := ""

  datatype Input = Input(owner: Owner, codec: Codec)

  /** A native input: its format, and the rank whose source feeds it. */
  datatype Feed = Feed(codec: Codec, rank: nat)

  type Inputs = map<StreamId, Input>
  type Native = map<(Owner, StreamId), Feed>

  predicate Mixes(native: Native, s: StreamId, x: Input, n: nat) {
    (x.owner, s) in native && native[(x.owner, s)] == Feed(x.codec, n)
  }

  predicate Ranked(inputs: Inputs, rank: seq<StreamId>, s: StreamId, x: Input, n: nat) {
    n < |rank| && rank[n] == s && s in inputs && inputs[s] == x
  }

  /** The native mixer has exactly the known streams that have a rank, each fed from its own rank. */
  ghost predicate InTune(inputs: Inputs, rank: seq<StreamId>, native: Native) {
    NOBODY !in inputs && forall s, x, n: nat :: Mixes(native, s, x, n) <==> Ranked(inputs, rank, s, x, n)
  }

  ghost predicate NoKnownRepeats(inputs: Inputs, rank: seq<StreamId>) {
    forall i, j :: 0 <= i < j < |rank| && rank[i] in inputs ==> rank[i] != rank[j]
  }

  lemma InTuneRanksOnce(inputs: Inputs, rank: seq<StreamId>, native: Native)
    requires InTune(inputs, rank, native)
    ensures NoKnownRepeats(inputs, rank)
  {
    forall i, j | 0 <= i < j < |rank| && rank[i] in inputs ensures rank[i] != rank[j] {
      assert Ranked(inputs, rank, rank[i], inputs[rank[i]], i) && Mixes(native, rank[i], inputs[rank[i]], i);
      assert rank[i] == rank[j] ==> Mixes(native, rank[i], inputs[rank[i]], j);
    }
  }

  /** The ranks below i that change have lost their inputs. */
  ghost predicate LetGo(inputs: Inputs, rank: seq<StreamId>, changes: seq<StreamId>, native: Native, i: nat)
    requires |rank| == |changes|
  {
    forall s, x, n: nat :: Mixes(native, s, x, n) <==> Ranked(inputs, rank, s, x, n) && (n < i ==> rank[n] == changes[n])
  }

  /** Of the ranks that change, those in `done` have their new inputs. */
  ghost predicate TakenUp(inputs: Inputs, rank: seq<StreamId>, changes: seq<StreamId>, native: Native, done: seq<nat>)
    requires |rank| == |changes|
  {
    forall s, x, n: nat :: Mixes(native, s, x, n) <==>
                      Ranked(inputs, changes, s, x, n) && (rank[n] == changes[n] || n in done)
  }

  lemma LetOneGo(inputs: Inputs, rank: seq<StreamId>, changes: seq<StreamId>, native: Native, i: nat)
    requires |rank| == |changes| && i < |rank| && NoKnownRepeats(inputs, rank) && LetGo(inputs, rank, changes, native, i)
    ensures var s := rank[i];
            LetGo(inputs, rank, changes,
                  if rank[i] != changes[i] && s in inputs then native - {(inputs[s].owner, s)} else native, i + 1)
  {
  }

  lemma TakeOneUp(inputs: Inputs, rank: seq<StreamId>, changes: seq<StreamId>, native: Native, done: seq<nat>, i: nat)
    requires |rank| == |changes| && i < |rank| && NoKnownRepeats(inputs, changes)
    requires TakenUp(inputs, rank, changes, native, done)
    ensures var s := changes[i];
            TakenUp(inputs, rank, changes,
                    if s in inputs then native[(inputs[s].owner, s) := Feed(inputs[s].codec, i)] else native, done + [i])
  {
  }

  class SelectiveMixer {
    const k: nat
    var inputs: Inputs
    var currentRank: seq<StreamId>
    var mixer: Native

    ghost predicate Valid()
      reads this
    {
      k > 0 && |currentRank| == k
    }

    ghost predicate Agrees()
      reads this
    {
      InTune(inputs, currentRank, mixer)
    }

    constructor (wanted: int)
      ensures Valid() && Agrees() && inputs == map[] && mixer == map[]
      ensures k == if wanted > 0 then wanted else 3
      ensures forall s <- currentRank :: s == NOBODY
    {
      var size := if wanted > 0 then wanted else 3;
      k, inputs, mixer := size, map[], map[];
      currentRank := seq(size, i => NOBODY);
    }

    /** Inputs of changed ranks are all removed before any is added, so streams can trade ranks. */
    method OnRankChange(changes: seq<StreamId>)
      requires Valid()
      modifies this
      ensures Valid() && inputs == old(inputs)
      ensures currentRank == if |changes| == k then changes else old(currentRank)
      ensures |changes| != k ==> mixer == old(mixer)
      ensures old(Agrees()) ==> (Agrees() <==> (|changes| == k ==> NoKnownRepeats(inputs, changes)))
    {
      if |changes| != |currentRank| {
        return;
      }
      ghost var was := InTune(inputs, currentRank, mixer);
      if was {
        InTuneRanksOnce(inputs, currentRank, mixer);
      }
      var pendingAddIndexes: seq<nat> := [];
      for i := 0 to |currentRank|
        invariant inputs == old(inputs) && currentRank == old(currentRank)
        invariant forall n: nat :: n in pendingAddIndexes <==> n < i && currentRank[n] != changes[n]
        invariant was ==> LetGo(inputs, currentRank, changes, mixer, i)
      {
        if was {
          LetOneGo(inputs, currentRank, changes, mixer, i);
        }
        if currentRank[i] != changes[i] {
          var streamId := currentRank[i];
          if streamId in inputs {
            mixer := mixer - {(inputs[streamId].owner, streamId)};
          }
          pendingAddIndexes := pendingAddIndexes + [i];
        }
      }
      ghost var clean := was && NoKnownRepeats(inputs, changes);
      for p := 0 to |pendingAddIndexes|
        invariant inputs == old(inputs) && currentRank == old(currentRank)
        invariant clean ==> TakenUp(inputs, currentRank, changes, mixer, pendingAddIndexes[..p])
      {
        var i := pendingAddIndexes[p];
        assert i in pendingAddIndexes;
        if clean {
          TakeOneUp(inputs, currentRank, changes, mixer, pendingAddIndexes[..p], i);
          assert pendingAddIndexes[..p + 1] == pendingAddIndexes[..p] + [i];
        }
        var streamId := changes[i];
        if streamId in inputs {
          mixer := mixer[(inputs[streamId].owner, streamId) := Feed(inputs[streamId].codec, i)];
        }
      }
      assert pendingAddIndexes[..|pendingAddIndexes|] == pendingAddIndexes;
      currentRank := changes;
      if InTune(inputs, changes, mixer) {
        InTuneRanksOnce(inputs, changes, mixer);
      }
    }

    /** A new stream is only mixed once it gets a rank; one that had a rank before it was known is missed. */
    method AddInput(owner: Owner, streamId: StreamId, codec: Codec) returns (ok: bool)
      modifies this
      ensures currentRank == old(currentRank) && mixer == old(mixer)
      ensures ok <==> streamId !in old(inputs)
      ensures inputs == if ok then old(inputs)[streamId := Input(owner, codec)] else old(inputs)
      ensures old(Agrees()) ==> (Agrees() <==> (ok ==> streamId != NOBODY && streamId !in currentRank))
    {
      ok := streamId !in inputs;
      if ok {
        ghost var was := inputs;
        inputs := inputs[streamId := Input(owner, codec)];
        if InTune(was, currentRank, mixer) {
          Joined(was, currentRank, mixer, streamId, Input(owner, codec));
        }
      }
    }

    /** A stream leaves its rank to nobody. The native input is looked up under the owner named in the call. */
    method RemoveInput(owner: Owner, streamId: StreamId)
      requires Valid()
      modifies this
      ensures Valid() && inputs == old(inputs) - {streamId}
      ensures var ranked := streamId in old(inputs) && streamId in old(currentRank);
              && currentRank == (if ranked then old(currentRank)[IndexOf(old(currentRank), streamId) := NOBODY] else old(currentRank))
              && mixer == (if ranked then old(mixer) - {(owner, streamId)} else old(mixer))
              && (old(Agrees()) ==> (Agrees() <==> (ranked ==> owner == old(inputs)[streamId].owner)))
    {
      if streamId in inputs {
        ghost var had, rank, native := inputs, currentRank, mixer;
        inputs := inputs - {streamId};
        if streamId in currentRank {
          var i := IndexOf(currentRank, streamId);
          mixer := mixer - {(owner, streamId)};
          currentRank := currentRank[i := NOBODY];
          if InTune(had, rank, native) {
            InTuneRanksOnce(had, rank, native);
            Left(had, rank, native, owner, streamId, i);
          }
        }
      }
      assert streamId !in inputs;
    }
  }

  lemma Joined(inputs: Inputs, rank: seq<StreamId>, native: Native, s: StreamId, x: Input)
    requires InTune(inputs, rank, native) && s !in inputs
    ensures InTune(inputs[s := x], rank, native) <==> s != NOBODY && s !in rank
  {
    var joined := inputs[s := x];
    if s in rank {
      var n := IndexOf(rank, s);
      assert Ranked(joined, rank, s, x, n) && !Ranked(inputs, rank, s, x, n);
    } else {
      assert forall t, y, n: nat :: Ranked(joined, rank, t, y, n) <==> Ranked(inputs, rank, t, y, n);
    }
  }

  lemma Left(inputs: Inputs, rank: seq<StreamId>, native: Native, owner: Owner, s: StreamId, i: nat)
    requires InTune(inputs, rank, native) && NoKnownRepeats(inputs, rank) && s in inputs && i < |rank| && rank[i] == s
    ensures InTune(inputs - {s}, rank[i := NOBODY], native - {(owner, s)}) <==> owner == inputs[s].owner
  {
    var rest, gone, h := inputs - {s}, rank[i := NOBODY], native - {(owner, s)};
    assert Ranked(inputs, rank, s, inputs[s], i) && Mixes(native, s, inputs[s], i);
    if owner == inputs[s].owner {
      forall t, x, n: nat ensures Mixes(h, t, x, n) <==> Ranked(rest, gone, t, x, n) {
        assert Mixes(native, t, x, n) <==> Ranked(inputs, rank, t, x, n);
      }
    } else {
      assert Mixes(h, s, inputs[s], i) && !Ranked(rest, gone, s, inputs[s], i);
    }
  }
}
