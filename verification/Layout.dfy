/** The layout of a mixed video: which input stands in which region of the current template. */
module Layout {
  import opened Options
  import opened Sequences

  datatype Region = Region(id: string, area: string)
  datatype Cell = Cell(input: Option<nat>, region: Region)

  /** Templates are filed under their number of regions; the largest of those numbers is maxCover. */
  ghost predicate TemplatesOk(templates: map<nat, seq<Region>>, maxCover: nat) {
    && (forall n <- templates :: n <= maxCover && |templates[n]| == n)
    && (templates != map[] ==> maxCover in templates)
    && (templates == map[] ==> maxCover == 0)
  }

  function Min(a: nat, b: nat): nat {
    if a < b then a else b
  }

  /** The regions are those of the smallest template with room for n inputs. */
  ghost predicate IsSmallestCover(templates: map<nat, seq<Region>>, n: nat, regions: seq<Region>) {
    exists k <- templates :: k >= n && templates[k] == regions && forall j <- templates :: j >= n ==> k <= j
  }

  /** Region k shows the k-th input, if there is one. */
  function Pairing(inputs: seq<nat>, regions: seq<Region>): (cells: seq<Cell>)
    ensures |cells| == |regions|
    ensures forall k :: 0 <= k < |regions| ==> cells[k] == Cell(if k < |inputs| then Some(inputs[k]) else None, regions[k])
  {
    seq(|regions|, k requires 0 <= k < |regions| => Cell(if k < |inputs| then Some(inputs[k]) else None, regions[k]))
  }

  function Swapped(inputs: seq<nat>, i: nat, j: nat): (r: seq<nat>)
    requires i < |inputs| && j < |inputs|
    ensures |r| == |inputs| && r[i] == inputs[j] && r[j] == inputs[i]
    ensures forall k :: 0 <= k < |r| && k != i && k != j ==> r[k] == inputs[k]
  {
    inputs[i := inputs[j]][j := inputs[i]]
  }

  /** The list without an input, which need not be in it. */
  function Hidden(inputs: seq<nat>, input: nat): seq<nat> {
    if input in inputs then WithoutAt(inputs, IndexOf(inputs, input)) else inputs
  }

  lemma SwappedSame(inputs: seq<nat>, i: nat, j: nat)
    requires i < |inputs| && j < |inputs|
    ensures multiset(Swapped(inputs, i, j)) == multiset(inputs)
  {
  }

  /** The first region with the given id, or the number of regions if there is none. */
  function RegionPosition(regions: seq<Region>, id: string): (p: nat)
    ensures p <= |regions|
    ensures p < |regions| ==> regions[p].id == id
    ensures forall k :: 0 <= k < p ==> regions[k].id != id
  {
    if regions == [] || regions[0].id == id then 0
    else
      var p := RegionPosition(regions[1..], id);
      assert forall k :: 1 <= k <= p ==> regions[k] == regions[1..][k - 1];
      p + 1
  }

  ghost predicate IsLastOfSize(layouts: seq<seq<Region>>, j: int, n: nat) {
    0 <= j < |layouts| && |layouts[j]| == n && forall k :: j < k < |layouts| ==> |layouts[k]| != n
  }

  lemma LastOfSize(layouts: seq<seq<Region>>, i: nat)
    requires i < |layouts|
    ensures IsLastOfSize(layouts[..i + 1], i, |layouts[i]|)
    ensures forall j, n: nat :: n != |layouts[i]| && IsLastOfSize(layouts[..i], j, n) ==> IsLastOfSize(layouts[..i + 1], j, n)
  {
  }

  class LayoutProcessor {
    const templates: map<nat, seq<Region>>
    const maxCover: nat
    var inputList: seq<nat>
    var currentRegions: seq<Region>
    var layoutSolution: seq<Cell>

    /** The current template is the smallest that covers the inputs, or the largest one there is. */
    ghost predicate Covers()
      reads this
    {
      templates != map[] ==> IsSmallestCover(templates, Min(|inputList|, maxCover), currentRegions)
    }

    ghost predicate Valid()
      reads this
    {
      && TemplatesOk(templates, maxCover)
      && Distinct(inputList)
      && layoutSolution == Pairing(inputList, currentRegions)
      && (Covers() || (inputList == [] && currentRegions == []))
      && (templates == map[] ==> currentRegions == [])
    }

    constructor (layouts: seq<seq<Region>>)
      ensures Valid() && inputList == [] && currentRegions == []
      ensures forall n <- templates :: exists j :: IsLastOfSize(layouts, j, n) && templates[n] == layouts[j]
      ensures forall l <- layouts :: |l| in templates
    {
      var ts: map<nat, seq<Region>>, max: nat := map[], 0;
      for i := 0 to |layouts|
        invariant TemplatesOk(ts, max)
        invariant forall n <- ts :: exists j :: IsLastOfSize(layouts[..i], j, n) && ts[n] == layouts[j]
        invariant forall j :: 0 <= j < i ==> |layouts[j]| in ts
      {
        LastOfSize(layouts, i);
        ts := ts[|layouts[i]| := layouts[i]];
        if max < |layouts[i]| {
          max := |layouts[i]|;
        }
      }
      assert layouts[..|layouts|] == layouts;
      templates, maxCover := ts, max;
      inputList, currentRegions, layoutSolution := [], [], [];
    }

    method ChoseTemplate(n: nat)
      requires TemplatesOk(templates, maxCover)
      modifies this`currentRegions
      ensures n <= maxCover && templates != map[] ==> IsSmallestCover(templates, n, currentRegions)
      ensures n > maxCover || templates == map[] ==> currentRegions == old(currentRegions)
    {
      var cand := n;
      while cand <= maxCover
        invariant n <= cand
        invariant n <= maxCover ==> cand <= maxCover + 1
        invariant forall k :: n <= k < cand && k <= maxCover ==> k !in templates
        invariant currentRegions == old(currentRegions)
        decreases maxCover + 1 - cand
      {
        if cand in templates {
          currentRegions := templates[cand];
          assert IsSmallestCover(templates, n, currentRegions);
          return;
        }
        cand := cand + 1;
      }
    }

    method UpdateInputPositions()
      modifies this`layoutSolution
      ensures layoutSolution == Pairing(inputList, currentRegions)
    {
      layoutSolution := [];
      for i := 0 to |currentRegions|
        invariant layoutSolution == Pairing(inputList, currentRegions)[..i]
      {
        if i < |inputList| {
          layoutSolution := layoutSolution + [Cell(Some(inputList[i]), currentRegions[i])];
        } else {
          layoutSolution := layoutSolution + [Cell(None, currentRegions[i])];
        }
      }
    }

    method AddInput(input: nat, front: bool)
      requires Valid()
      modifies this
      ensures Valid()
      ensures old(input in inputList) ==> inputList == old(inputList) && currentRegions == old(currentRegions)
      ensures old(input !in inputList) ==>
                inputList == (if front then [input] + old(inputList) else old(inputList) + [input]) && Covers()
    {
      if input in inputList {
        return;
      }
      if front {
        inputList := [input] + inputList;
      } else {
        inputList := inputList + [input];
      }
      ChoseTemplate(|inputList|);
      UpdateInputPositions();
    }

    method RemoveInput(input: nat)
      requires Valid()
      modifies this
      ensures Valid()
      ensures inputList == Hidden(old(inputList), input)
      ensures if old(input in inputList) then Covers() else currentRegions == old(currentRegions)
    {
      if input in inputList {
        var pos := IndexOf(inputList, input);
        WithoutAtIs(inputList, pos);
        inputList := WithoutAt(inputList, pos);
        ChoseTemplate(|inputList|);
        UpdateInputPositions();
      }
    }

    method FindRegion(regionId: string) returns (p: nat)
      ensures p == RegionPosition(currentRegions, regionId)
    {
      p := 0;
      while p < |currentRegions|
        invariant p <= |currentRegions|
        invariant forall k :: 0 <= k < p ==> currentRegions[k].id != regionId
      {
        if currentRegions[p].id == regionId {
          break;
        }
        p := p + 1;
      }
    }

    /** Puts an input into a region by swapping it with whatever stands there. */
    method SpecifyInputRegion(input: nat, regionId: string) returns (ok: bool)
      requires Valid()
      modifies this
      ensures Valid() && currentRegions == old(currentRegions)
      ensures var r := RegionPosition(currentRegions, regionId);
              var known := old(input in inputList);
              var p := if known then IndexOf(old(inputList), input) else 0;
              && (ok <==> known && (p == r || (r < |currentRegions| && r < |old(inputList)|)))
              && (ok && p != r ==> inputList == Swapped(old(inputList), p, r) && layoutSolution[r].input == Some(input))
              && (!ok || p == r ==> inputList == old(inputList))
    {
      var regionPos := FindRegion(regionId);
      if input !in inputList {
        return false;
      }
      var inputPos := IndexOf(inputList, input);
      if inputPos == regionPos {
        return true;
      }
      if regionPos < |currentRegions| && regionPos < |inputList| {
        inputList := Swapped(inputList, inputPos, regionPos);
        UpdateInputPositions();
        return true;
      }
      return false;
    }

    /** Puts an input first, where region 0 shows it. */
    method SetPrimary(input: nat)
      requires Valid()
      modifies this
      ensures Valid() && currentRegions == old(currentRegions)
      ensures old(input !in inputList) ==> inputList == old(inputList)
      ensures old(input in inputList) ==>
                && inputList == Swapped(old(inputList), IndexOf(old(inputList), input), 0)
                && inputList[0] == input && (currentRegions != [] ==> layoutSolution[0].input == Some(input))
    {
      if input !in inputList {
        return;
      }
      var inputPos := IndexOf(inputList, input);
      if inputPos == 0 || |inputList| <= 1 {
        return;
      }
      inputList := Swapped(inputList, inputPos, 0);
      UpdateInputPositions();
    }

    /** The input in the region with this id. The source reads past the regions when there are more inputs than
        regions and none of the regions has the id. */
    method GetInput(regionId: string) returns (input: Option<nat>, threw: bool)
      requires Valid()
      ensures var r := RegionPosition(currentRegions, regionId);
              && (threw <==> r == |currentRegions| < |inputList|)
              && (input.Some? <==> r < |currentRegions| && r < |inputList|)
              && (input.Some? ==> input.value == inputList[r])
    {
      var r := FindRegion(regionId);
      threw := r == |currentRegions| && r < |inputList|;
      input := if r < |currentRegions| && r < |inputList| then Some(inputList[r]) else None;
    }
  }
}
