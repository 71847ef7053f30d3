/** The matchers: which of the available workers suit a preference. */
module Matcher {
  import opened Options
  import opened Sequences
  import opened SchedulerModel

  /** A missing field of the source's preference object is None. */
  datatype Preference = Preference(isp: Option<string>, region: Option<string>, video: Option<Video>, algorithm: Option<string>)

  /** Portal, streaming, webrtc and audio share one matcher; purposes not named here take every candidate. */
  datatype Purpose = ByRegion | ForVideo | ForAnalytics | General

  predicate IspApplicable(isps: seq<string>, preferred: Option<string>) {
    (preferred.Some? && preferred.value in isps) || isps == []
  }

  predicate RegionSuited(regions: seq<string>, preferred: Option<string>) {
    preferred.Some? && preferred.value in regions
  }

  predicate Applicable(ws: map<WorkerId, Worker>, p: Preference, id: WorkerId) {
    id in ws && IspApplicable(ws[id].info.capacity.isps, p.isp)
  }

  predicate Suited(ws: map<WorkerId, Worker>, p: Preference, id: WorkerId) {
    Applicable(ws, p, id) && RegionSuited(ws[id].info.capacity.regions, p.region)
  }

  predicate Contains(listA: seq<string>, listB: seq<string>) {
    forall f <- listB :: f in listA
  }

  predicate Codes(ws: map<WorkerId, Worker>, v: Video, id: WorkerId) {
    && id in ws && ws[id].info.capacity.video.Some?
    && Contains(ws[id].info.capacity.video.value.encode, v.encode)
    && Contains(ws[id].info.capacity.video.value.decode, v.decode)
  }

  function Filter(ids: seq<WorkerId>, keep: WorkerId -> bool): (r: seq<WorkerId>)
    ensures forall id :: id in r <==> id in ids && keep(id)
  {
    if ids == [] then []
    else
      var init := Filter(ids[..|ids| - 1], keep);
      if keep(ids[|ids| - 1]) then init + [ids[|ids| - 1]] else init
  }

  function SuitedIn(ws: map<WorkerId, Worker>, p: Preference): WorkerId -> bool {
    id => Suited(ws, p, id)
  }

  function ApplicableIn(ws: map<WorkerId, Worker>, p: Preference): WorkerId -> bool {
    id => Applicable(ws, p, id)
  }

  function CodingIn(ws: map<WorkerId, Worker>, v: Video): WorkerId -> bool {
    id => Codes(ws, v, id)
  }

  function AnalysingIn(ws: map<WorkerId, Worker>, algorithm: string): WorkerId -> bool {
    id => id in ws && algorithm in ws[id].info.capacity.algorithms
  }

  /** Two passes: those that suit the preferred region, or everyone applicable when none does. */
  function BestByRegion(ws: map<WorkerId, Worker>, p: Preference, ids: seq<WorkerId>): seq<WorkerId> {
    var suited := Filter(ids, SuitedIn(ws, p));
    if suited != [] then suited else Filter(ids, ApplicableIn(ws, p))
  }

  function Matching(purpose: Purpose, ws: map<WorkerId, Worker>, p: Preference, ids: seq<WorkerId>): seq<WorkerId> {
    match purpose
    case General => ids
    case ByRegion => BestByRegion(ws, p, ids)
    case ForVideo =>
      if p.video.None? then ids else BestByRegion(ws, p, Filter(ids, CodingIn(ws, p.video.value)))
    case ForAnalytics =>
      if p.algorithm.None? then ids
      else Filter(ids, AnalysingIn(ws, p.algorithm.value))
  }

  // ----- the source's loops

  method FormatContain(listA: seq<string>, listB: seq<string>) returns (ok: bool)
    ensures ok <==> Contains(listA, listB)
  {
    var count := 0;
    for i := 0 to |listB|
      invariant 0 <= count <= i
      invariant count == i <==> forall j :: 0 <= j < i ==> listB[j] in listA
    {
      if listB[i] in listA {
        count := count + 1;
      }
    }
    ok := count == |listB|;
  }

  /** One pass: the first suited candidate throws away what was kept so far, and from then on only suited ones join. */
  method MatchByRegion(ws: map<WorkerId, Worker>, p: Preference, ids: seq<WorkerId>) returns (result: seq<WorkerId>)
    requires forall id <- ids :: id in ws
    ensures result == BestByRegion(ws, p, ids)
  {
    result := [];
    var foundSweet := false;
    ghost var suited := SuitedIn(ws, p);
    ghost var fine := ApplicableIn(ws, p);
    for i := 0 to |ids|
      invariant foundSweet <==> Filter(ids[..i], suited) != []
      invariant result == if foundSweet then Filter(ids[..i], suited) else Filter(ids[..i], fine)
    {
      assert ids[..i + 1][..i] == ids[..i];
      var id := ids[i];
      var capacity := ws[id].info.capacity;
      if IspApplicable(capacity.isps, p.isp) {
        if RegionSuited(capacity.regions, p.region) {
          if !foundSweet {
            foundSweet := true;
            result := [id];
          } else {
            result := result + [id];
          }
        } else if !foundSweet {
          result := result + [id];
        }
      }
    }
    assert ids[..|ids|] == ids;
  }

  method CapableOf(ws: map<WorkerId, Worker>, v: Video, ids: seq<WorkerId>) returns (result: seq<WorkerId>)
    requires forall id <- ids :: id in ws
    ensures result == Filter(ids, CodingIn(ws, v))
  {
    result := [];
    ghost var codes := CodingIn(ws, v);
    for i := 0 to |ids|
      invariant result == Filter(ids[..i], codes)
    {
      assert ids[..i + 1][..i] == ids[..i];
      var encodeOk, decodeOk := false, false;
      var video := ws[ids[i]].info.capacity.video;
      if video.Some? {
        encodeOk := FormatContain(video.value.encode, v.encode);
        decodeOk := FormatContain(video.value.decode, v.decode);
      }
      if encodeOk && decodeOk {
        result := result + [ids[i]];
      }
    }
    assert ids[..|ids|] == ids;
  }

  method Match(purpose: Purpose, ws: map<WorkerId, Worker>, p: Preference, ids: seq<WorkerId>) returns (result: seq<WorkerId>)
    requires forall id <- ids :: id in ws
    ensures result == Matching(purpose, ws, p, ids)
  {
    match purpose {
      case General => result := ids;
      case ByRegion => result := MatchByRegion(ws, p, ids);
      case ForVideo =>
        if p.video.None? {
          return ids;
        }
        var capable := CapableOf(ws, p.video.value, ids);
        result := MatchByRegion(ws, p, capable);
      case ForAnalytics =>
        if p.algorithm.None? {
          return ids;
        }
        result := Filter(ids, AnalysingIn(ws, p.algorithm.value));
    }
  }

  // ----- what matching promises

  /** Every match is a candidate that fits the purpose, and no applicable candidate in another region is returned
      while one in the preferred region could be. */
  lemma MatchIsSound(purpose: Purpose, ws: map<WorkerId, Worker>, p: Preference, ids: seq<WorkerId>)
    ensures var r := Matching(purpose, ws, p, ids);
            && (forall id <- r :: id in ids)
            && (purpose == ByRegion || (purpose == ForVideo && p.video.Some?) ==>
                  && (forall id <- r :: Applicable(ws, p, id))
                  && (forall id <- r, other <- ids | Suited(ws, p, other) && (purpose == ForVideo ==> Codes(ws, p.video.value, other)) ::
                        Suited(ws, p, id)))
            && (purpose == ForVideo && p.video.Some? ==> forall id <- r :: Codes(ws, p.video.value, id))
  {
  }

  lemma {:induction false} FilterInOrder(ids: seq<WorkerId>, keep: WorkerId -> bool)
    ensures InOrderOf(Filter(ids, keep), ids)
  {
    if ids != [] {
      var init, last := ids[..|ids| - 1], ids[|ids| - 1];
      assert ids == init + [last];
      FilterInOrder(init, keep);
      OrderGrows(Filter(init, keep), init, last);
    }
  }

  /** A worker serves an isp that it lists, or any if it lists none; and it must be able to do what is wanted of it. */
  ghost predicate Fits(purpose: Purpose, ws: map<WorkerId, Worker>, p: Preference, id: WorkerId)
    requires id in ws
  {
    var c := ws[id].info.capacity;
    && (c.isps == [] || (p.isp.Some? && p.isp.value in c.isps))
    && (purpose == ForVideo && p.video.Some? ==>
          && c.video.Some?
          && (forall e <- p.video.value.encode :: e in c.video.value.encode)
          && (forall d <- p.video.value.decode :: d in c.video.value.decode))
  }

  ghost predicate InRegion(ws: map<WorkerId, Worker>, p: Preference, id: WorkerId)
    requires id in ws
  {
    p.region.Some? && p.region.value in ws[id].info.capacity.regions
  }

  /** The matches are exactly the fitting candidates of the preferred region, or all fitting ones if the region has none;
      for analytics exactly those that know the algorithm; everyone when nothing is asked for; always in their order. */
  lemma MatchIsExact(purpose: Purpose, ws: map<WorkerId, Worker>, p: Preference, ids: seq<WorkerId>)
    requires forall id <- ids :: id in ws
    ensures var r := Matching(purpose, ws, p, ids);
            && InOrderOf(r, ids)
            && (purpose == ByRegion || (purpose == ForVideo && p.video.Some?) ==>
                  forall id :: id in r <==>
                    && id in ids && Fits(purpose, ws, p, id)
                    && (InRegion(ws, p, id) || forall other <- ids | Fits(purpose, ws, p, other) :: !InRegion(ws, p, other)))
            && (purpose == ForAnalytics && p.algorithm.Some? ==>
                  forall id :: id in r <==> id in ids && p.algorithm.value in ws[id].info.capacity.algorithms)
            && (purpose == General || (purpose == ForVideo && p.video.None?) || (purpose == ForAnalytics && p.algorithm.None?) ==>
                  r == ids)
  {
    match purpose {
      case General =>
      case ByRegion => BestIsExact(purpose, ws, p, ids, ids);
      case ForVideo =>
        if p.video.Some? {
          FilterInOrder(ids, CodingIn(ws, p.video.value));
          BestIsExact(purpose, ws, p, ids, Filter(ids, CodingIn(ws, p.video.value)));
        }
      case ForAnalytics => if p.algorithm.Some? { FilterInOrder(ids, AnalysingIn(ws, p.algorithm.value)); }
    }
  }

  lemma BestIsExact(purpose: Purpose, ws: map<WorkerId, Worker>, p: Preference, ids: seq<WorkerId>, able: seq<WorkerId>)
    requires (forall id <- ids :: id in ws) && InOrderOf(able, ids)
    requires forall id :: id in able <==> id in ids && (purpose == ForVideo && p.video.Some? ==> Codes(ws, p.video.value, id))
    requires purpose == ByRegion || (purpose == ForVideo && p.video.Some?)
    ensures var r := BestByRegion(ws, p, able);
            && InOrderOf(r, ids)
            && forall id :: id in r <==>
                 && id in ids && Fits(purpose, ws, p, id)
                 && (InRegion(ws, p, id) || forall other <- ids | Fits(purpose, ws, p, other) :: !InRegion(ws, p, other))
  {
    FilterInOrder(able, SuitedIn(ws, p));
    FilterInOrder(able, ApplicableIn(ws, p));
    forall id <- ids
      ensures Fits(purpose, ws, p, id) <==> id in able && Applicable(ws, p, id)
      ensures Suited(ws, p, id) <==> Applicable(ws, p, id) && InRegion(ws, p, id)
    {
    }
    var suited := Filter(able, SuitedIn(ws, p));
    assert suited == [] <==> forall id <- able :: !Suited(ws, p, id) by {
      if suited != [] { assert suited[0] in suited; }
    }
  }

  lemma {:induction false} FilterDistinct(ids: seq<WorkerId>, keep: WorkerId -> bool)
    requires Distinct(ids)
    ensures Distinct(Filter(ids, keep))
  {
    if ids != [] {
      var init, last := ids[..|ids| - 1], ids[|ids| - 1];
      FilterDistinct(init, keep);
      assert last !in init;
      assert last !in Filter(init, keep);
    }
  }

  lemma MatchDistinct(purpose: Purpose, ws: map<WorkerId, Worker>, p: Preference, ids: seq<WorkerId>)
    requires Distinct(ids)
    ensures Distinct(Matching(purpose, ws, p, ids))
  {
    BestDistinct(ws, p, ids);
    if purpose == ForVideo && p.video.Some? {
      FilterDistinct(ids, CodingIn(ws, p.video.value));
      BestDistinct(ws, p, Filter(ids, CodingIn(ws, p.video.value)));
    } else if purpose == ForAnalytics && p.algorithm.Some? {
      FilterDistinct(ids, AnalysingIn(ws, p.algorithm.value));
    }
  }

  lemma BestDistinct(ws: map<WorkerId, Worker>, p: Preference, ids: seq<WorkerId>)
    requires Distinct(ids)
    ensures Distinct(BestByRegion(ws, p, ids))
  {
    FilterDistinct(ids, SuitedIn(ws, p));
    FilterDistinct(ids, ApplicableIn(ws, p));
  }
}
