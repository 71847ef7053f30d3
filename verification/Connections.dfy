/** The links between the incoming and outgoing connections of an agent, kept in two places: each outgoing connection
    names its sources, and each native source lists the destinations it feeds. */
module Connections {
  import opened Options
  import opened Sequences

  type Id = string

  datatype Direction = In | Out
  datatype Track = Audio | Video

  /** `ready` are the tracks for which the connection has a receiver; audioTo and videoTo are the native lists. */
  datatype Connection = Connection(
    direction: Direction, ready: set<Track>,
    audioFrom: Option<Id>, videoFrom: Option<Id>,
    audioTo: seq<Id>, videoTo: seq<Id>)
  {
    function From(t: Track): Option<Id> {
      if t == Audio then audioFrom else videoFrom
    }

    function To(t: Track): seq<Id> {
      if t == Audio then audioTo else videoTo
    }

    function WithFrom(t: Track, from: Option<Id>): Connection {
      if t == Audio then this.(audioFrom := from) else this.(videoFrom := from)
    }

    function WithTo(t: Track, to: seq<Id>): Connection {
      if t == Audio then this.(audioTo := to) else this.(videoTo := to)
    }
  }

  type Graph = map<Id, Connection>

  /** What a graph says about one track. */
  datatype End = End(direction: Direction, ready: bool, from: Option<Id>, to: seq<Id>)

  function View(g: Graph, t: Track): map<Id, End> {
    map d | d in g :: End(g[d].direction, t in g[d].ready, g[d].From(t), g[d].To(t))
  }

  predicate Names(v: map<Id, End>, d: Id, s: Id) {
    d in v && v[d].from == Some(s)
  }

  predicate Feeds(v: map<Id, End>, s: Id, d: Id) {
    s in v && d in v[s].to
  }

  predicate MayLink(v: map<Id, End>, d: Id, s: Id) {
    d in v && s in v && v[d].direction == Out && v[d].ready && v[s].direction == In
  }

  /** Each link goes from an incoming to an outgoing connection that is there, and the two places agree on it. */
  ghost predicate LinksOk(v: map<Id, End>) {
    && (forall d, s :: Names(v, d, s) <==> Feeds(v, s, d))
    && (forall d, s :: Names(v, d, s) ==> MayLink(v, d, s))
    && (forall s <- v :: Distinct(v[s].to))
  }

  ghost predicate InStep(g: Graph, t: Track) {
    LinksOk(View(g, t))
  }

  ghost predicate Consistent(g: Graph) {
    InStep(g, Audio) && InStep(g, Video)
  }

  /** The native removal takes every occurrence. */
  function Minus(l: seq<Id>, gone: set<Id>): (r: seq<Id>)
    ensures forall d :: d in r <==> d in l && d !in gone
    ensures Distinct(l) ==> Distinct(r)
  {
    if l == [] then []
    else
      var rest := Minus(l[1..], gone);
      assert forall d :: d in l <==> d == l[0] || d in l[1..];
      assert Distinct(l) ==> l[0] !in l[1..] && Distinct(l[1..]);
      if l[0] in gone then rest else [l[0]] + rest
  }

  lemma {:induction false} MinusTwice(l: seq<Id>, a: set<Id>, b: set<Id>)
    ensures Minus(Minus(l, a), b) == Minus(l, a + b)
  {
    if l != [] {
      MinusTwice(l[1..], a, b);
      var rest := Minus(l[1..], a);
      assert l[0] !in a ==> ([l[0]] + rest)[1..] == rest;
    }
  }

  lemma {:induction false} MinusNothing(l: seq<Id>, gone: set<Id>)
    requires forall d <- l :: d !in gone
    ensures Minus(l, gone) == l
  {
    if l != [] {
      MinusNothing(l[1..], gone);
    }
  }

  // ----- linking

  predicate CanLink(g: Graph, dst: Id, t: Track, from: Option<Id>)
    requires dst in g
  {
    from.None? || (from.value in g && t in g[dst].ready)
  }

  function LinkTrack(g: Graph, dst: Id, t: Track, from: Option<Id>): Graph
    requires dst in g && CanLink(g, dst, t, from)
  {
    if from.None? then g
    else
      var fed := g[from.value := g[from.value].WithTo(t, g[from.value].To(t) + [dst])];
      fed[dst := fed[dst].WithFrom(t, from)]
  }

  /** What a request for links on both tracks leaves behind: a refusal on the second track keeps the first link. */
  function Linkup(g: Graph, dst: Id, audio: Option<Id>, video: Option<Id>): Graph {
    if dst !in g || !CanLink(g, dst, Audio, audio) then g
    else
      var heard := LinkTrack(g, dst, Audio, audio);
      if CanLink(heard, dst, Video, video) then LinkTrack(heard, dst, Video, video) else heard
  }

  /** The track is not asked for, or goes from an incoming connection to an outgoing one that has no source for it. */
  predicate Fresh(g: Graph, dst: Id, t: Track, from: Option<Id>)
    requires dst in g && CanLink(g, dst, t, from)
  {
    from.None? || (g[dst].direction == Out && g[from.value].direction == In && g[dst].From(t).None?)
  }

  function Linked(v: map<Id, End>, dst: Id, s: Id): map<Id, End>
    requires dst in v && s in v
  {
    var fed := v[s := v[s].(to := v[s].to + [dst])];
    fed[dst := fed[dst].(from := Some(s))]
  }

  lemma LinkView(g: Graph, dst: Id, t: Track, u: Track, s: Id)
    requires dst in g && CanLink(g, dst, t, Some(s))
    ensures View(LinkTrack(g, dst, t, Some(s)), u) == if t == u then Linked(View(g, u), dst, s) else View(g, u)
  {
  }

  lemma LinkedOnce(v: map<Id, End>, dst: Id, s: Id)
    requires LinksOk(v) && MayLink(v, dst, s) && v[dst].from.None?
    ensures LinksOk(Linked(v, dst, s))
  {
    var h := Linked(v, dst, s);
    assert !Names(v, dst, s) && !Feeds(v, s, dst);
    forall d, x ensures Names(h, d, x) <==> Names(v, d, x) || (d == dst && x == s) {
      assert !Names(v, dst, x);
    }
    forall d, x ensures Feeds(h, x, d) <==> Feeds(v, x, d) || (d == dst && x == s) {
      assert d in v[s].to + [dst] <==> d in v[s].to || d == dst;
    }
    assert Distinct(v[s].to + [dst]);
    assert forall d, x :: MayLink(v, d, x) ==> MayLink(h, d, x);
  }

  /** A destination that has a source already is fed twice, or by two sources of which it names only one. */
  lemma LinkedTwice(v: map<Id, End>, dst: Id, s: Id)
    requires LinksOk(v) && dst in v && s in v && v[dst].from.Some?
    ensures !LinksOk(Linked(v, dst, s))
  {
    var h := Linked(v, dst, s);
    var x := v[dst].from.value;
    assert Names(v, dst, x) && Feeds(v, x, dst);
    var l := v[x].to;
    if x == s {
      var i :| 0 <= i < |l| && l[i] == dst;
      assert h[x].to[i] == h[x].to[|l|];
    } else {
      assert Feeds(h, x, dst) && !Names(h, dst, x);
    }
  }

  lemma LinkedWrongWay(v: map<Id, End>, dst: Id, s: Id)
    requires dst in v && s in v && (v[dst].direction != Out || v[s].direction != In)
    ensures !LinksOk(Linked(v, dst, s))
  {
    assert Names(Linked(v, dst, s), dst, s) && !MayLink(Linked(v, dst, s), dst, s);
  }

  lemma LinkTrackKeeps(g: Graph, dst: Id, t: Track, from: Option<Id>)
    requires InStep(g, t) && dst in g && CanLink(g, dst, t, from)
    ensures InStep(LinkTrack(g, dst, t, from), t) <==> Fresh(g, dst, t, from)
  {
    if from.Some? {
      LinkView(g, dst, t, t, from.value);
      if Fresh(g, dst, t, from) {
        LinkedOnce(View(g, t), dst, from.value);
      } else if g[dst].From(t).Some? {
        LinkedTwice(View(g, t), dst, from.value);
      } else {
        LinkedWrongWay(View(g, t), dst, from.value);
      }
    }
  }

  lemma LinkKeepsOther(g: Graph, dst: Id, t: Track, u: Track, from: Option<Id>)
    requires dst in g && CanLink(g, dst, t, from) && t != u
    ensures View(LinkTrack(g, dst, t, from), u) == View(g, u)
  {
  }

  /** A request for links keeps the two places in step exactly when every link it makes is fresh. */
  lemma LinkupKeeps(g: Graph, dst: Id, audio: Option<Id>, video: Option<Id>)
    requires Consistent(g)
    ensures Consistent(Linkup(g, dst, audio, video)) <==>
            (dst in g && CanLink(g, dst, Audio, audio) ==>
               Fresh(g, dst, Audio, audio) && (CanLink(g, dst, Video, video) ==> Fresh(g, dst, Video, video)))
  {
    if dst in g && CanLink(g, dst, Audio, audio) {
      var heard := LinkTrack(g, dst, Audio, audio);
      LinkTrackKeeps(g, dst, Audio, audio);
      LinkKeepsOther(g, dst, Audio, Video, audio);
      if CanLink(heard, dst, Video, video) {
        LinkTrackKeeps(heard, dst, Video, video);
        LinkKeepsOther(heard, dst, Video, Audio, video);
      }
    }
  }

  /** The same ends, but that dst has the source s, if one is given, which has one more destination. */
  ghost function LinkedTo(v: map<Id, End>, dst: Id, from: Option<Id>): map<Id, End> {
    map d | d in v ::
      End(v[d].direction, v[d].ready, if d == dst && from.Some? then from else v[d].from,
          if Some(d) == from then v[d].to + [dst] else v[d].to)
  }

  lemma LinkedIs(v: map<Id, End>, dst: Id, s: Id)
    requires dst in v && s in v
    ensures Linked(v, dst, s) == LinkedTo(v, dst, Some(s))
  {
  }

  lemma LinkTrackMakes(g: Graph, dst: Id, t: Track, u: Track, from: Option<Id>)
    requires dst in g && CanLink(g, dst, t, from)
    ensures View(LinkTrack(g, dst, t, from), u) == if t == u then LinkedTo(View(g, u), dst, from) else View(g, u)
  {
    if from.Some? {
      LinkView(g, dst, t, u, from.value);
      LinkedIs(View(g, u), dst, from.value);
    } else {
      assert LinkedTo(View(g, u), dst, None) == View(g, u);
    }
  }

  /** The request finds the source of the track, and a receiver for it, or asks for none. */
  predicate Servable(g: Graph, dst: Id, t: Track, from: Option<Id>) {
    dst in g && (from.Some? ==> from.value in g && t in g[dst].ready)
  }

  /** What a request makes: on each track it asks for, the destination names the new source in place of the one it had,
      and the new source also feeds it; nothing else changes. The first track is linked even if the second cannot be, and
      a track cannot be when the source is not there or the destination has no receiver. */
  lemma LinkupMakes(g: Graph, dst: Id, audio: Option<Id>, video: Option<Id>)
    ensures var h := Linkup(g, dst, audio, video);
            && (Servable(g, dst, Audio, audio) ==> View(h, Audio) == LinkedTo(View(g, Audio), dst, audio))
            && (!Servable(g, dst, Audio, audio) ==> h == g)
            && (Servable(g, dst, Audio, audio) ==>
                  View(h, Video) == if Servable(g, dst, Video, video) then LinkedTo(View(g, Video), dst, video) else View(g, Video))
  {
    if Servable(g, dst, Audio, audio) {
      var heard := LinkTrack(g, dst, Audio, audio);
      LinkTrackMakes(g, dst, Audio, Audio, audio);
      LinkTrackMakes(g, dst, Audio, Video, audio);
      if Servable(g, dst, Video, video) {
        LinkTrackMakes(heard, dst, Video, Audio, video);
        LinkTrackMakes(heard, dst, Video, Video, video);
      }
    }
  }

  // ----- cutting

  function Uncut(c: Connection, s: Id): Connection {
    var a := if c.audioFrom == Some(s) then c.(audioFrom := None) else c;
    if a.videoFrom == Some(s) then a.(videoFrom := None) else a
  }

  /** The destinations that name s as their source and are taken off its native list. */
  ghost function Fed(g: Graph, s: Id, t: Track): set<Id> {
    set d | d in g && g[d].direction == Out && g[d].From(t) == Some(s) && t in g[d].ready
  }

  /** No destination names the incoming connection s any more. */
  ghost function CutFrom(g: Graph, s: Id): Graph {
    if s !in g || g[s].direction != In then g
    else
      map d | d in g ::
        if d == s then g[s].(audioTo := Minus(g[s].audioTo, Fed(g, s, Audio)), videoTo := Minus(g[s].videoTo, Fed(g, s, Video)))
        else if g[d].direction == Out then Uncut(g[d], s) else g[d]
  }

  predicate HasSource(g: Graph, d: Id, t: Track)
    requires d in g
  {
    g[d].From(t).Some? && g[d].From(t).value in g && g[g[d].From(t).value].direction == In
  }

  /** The outgoing connection d has a source on a track for which it has no receiver. */
  predicate Trips(g: Graph, d: Id, t: Track) {
    d in g && g[d].direction == Out && HasSource(g, d, t) && t !in g[d].ready
  }

  lemma OutOfStep(g: Graph, d: Id, t: Track)
    requires Trips(g, d, t)
    ensures !InStep(g, t)
  {
    assert Names(View(g, t), d, g[d].From(t).value) && !MayLink(View(g, t), d, g[d].From(t).value);
  }

  /** Cutting the first track changes nothing about the second. */
  lemma TripsLater(g: Graph, d: Id)
    requires d in g && g[d].direction == Out
    ensures var h := CutTrack(g, d, Audio);
            && d in h && HasSource(h, d, Video) == HasSource(g, d, Video) && h[d].ready == g[d].ready
            && Trips(h, d, Video) == Trips(g, d, Video)
  {
    if HasSource(g, d, Audio) {
      var s := g[d].From(Audio).value;
      assert s != d;
    }
  }

  /** The outgoing connection d loses its source on one track. */
  function CutTrack(g: Graph, d: Id, t: Track): Graph
    requires d in g
  {
    if HasSource(g, d, t) then
      var s := g[d].From(t).value;
      var cut := g[s := g[s].WithTo(t, Minus(g[s].To(t), {d}))];
      cut[d := cut[d].WithFrom(t, None)]
    else g
  }

  function CutTo(g: Graph, d: Id): Graph {
    if d !in g || g[d].direction != Out then g else CutTrack(CutTrack(g, d, Audio), d, Video)
  }

  lemma MinusAll(l: seq<Id>, gone: set<Id>)
    requires forall d <- l :: d in gone
    ensures Minus(l, gone) == []
  {
  }

  ghost function Freed(v: map<Id, End>, s: Id): map<Id, End> {
    map d | d in v :: if d == s then v[d].(to := []) else if v[d].from == Some(s) then v[d].(from := None) else v[d]
  }

  lemma FreedOk(v: map<Id, End>, s: Id)
    requires LinksOk(v) && s in v && v[s].direction == In
    ensures LinksOk(Freed(v, s))
    ensures forall d, x :: Names(Freed(v, s), d, x) <==> Names(v, d, x) && d != s && x != s
  {
    var h := Freed(v, s);
    assert v[s].from.Some? ==> Names(v, s, v[s].from.value);
    forall d, x ensures Names(h, d, x) <==> Names(v, d, x) && d != s && x != s {
    }
    forall d, x ensures Feeds(h, x, d) <==> Feeds(v, x, d) && x != s {
    }
    assert forall d, x :: MayLink(v, d, x) ==> MayLink(h, d, x);
  }

  /** Cutting an incoming connection off takes every link from it, in both places, and no others. */
  lemma CutFromKeeps(g: Graph, s: Id, t: Track)
    requires InStep(g, t)
    ensures InStep(CutFrom(g, s), t)
    ensures View(CutFrom(g, s), t) == if s in g && g[s].direction == In then Freed(View(g, t), s) else View(g, t)
  {
    if s in g && g[s].direction == In {
      FreedView(g, s, t);
      FreedOk(View(g, t), s);
    }
  }

  lemma FreedView(g: Graph, s: Id, t: Track)
    requires InStep(g, t) && s in g && g[s].direction == In
    ensures View(CutFrom(g, s), t) == Freed(View(g, t), s)
  {
    FreedSource(g, s, t);
    forall d <- g | d != s ensures View(CutFrom(g, s), t)[d] == Freed(View(g, t), s)[d] {
      FreedOther(g, s, t, d);
    }
  }

  lemma FreedOther(g: Graph, s: Id, t: Track, d: Id)
    requires InStep(g, t) && s in g && g[s].direction == In && d in g && d != s
    ensures View(CutFrom(g, s), t)[d] == Freed(View(g, t), s)[d]
  {
    var v := View(g, t);
    assert v[d].from == Some(s) ==> Names(v, d, s);
    UncutAt(g[d], s, t);
  }

  lemma UncutAt(c: Connection, s: Id, t: Track)
    ensures var u := Uncut(c, s);
            && u.direction == c.direction && u.ready == c.ready && u.To(t) == c.To(t)
            && u.From(t) == if c.From(t) == Some(s) then None else c.From(t)
  {
  }

  lemma FreedSource(g: Graph, s: Id, t: Track)
    requires InStep(g, t) && s in g && g[s].direction == In
    ensures CutFrom(g, s)[s].To(t) == [] && g[s].From(t).None?
  {
    var v := View(g, t);
    forall d <- g[s].To(t) ensures d in Fed(g, s, t) {
      assert Feeds(v, s, d) && Names(v, d, s);
    }
    MinusAll(g[s].To(t), Fed(g, s, t));
    assert v[s].from.Some? ==> Names(v, s, v[s].from.value);
  }

  function Unlinked(v: map<Id, End>, d: Id): map<Id, End>
    requires d in v
  {
    if v[d].from.None? || v[d].from.value !in v then v
    else
      var s := v[d].from.value;
      var cut := v[s := v[s].(to := Minus(v[s].to, {d}))];
      cut[d := cut[d].(from := None)]
  }

  lemma UnlinkedOk(v: map<Id, End>, d: Id)
    requires LinksOk(v) && d in v
    ensures LinksOk(Unlinked(v, d))
    ensures forall e, x :: Names(Unlinked(v, d), e, x) <==> Names(v, e, x) && e != d
  {
    if v[d].from.None? {
      return;
    }
    var h := Unlinked(v, d);
    var s := v[d].from.value;
    assert Names(v, d, s);
    forall e, x ensures Names(h, e, x) <==> Names(v, e, x) && e != d {
    }
    forall e, x ensures Feeds(h, x, e) <==> Feeds(v, x, e) && e != d {
      assert e == d && x != s ==> !Names(v, d, x);
    }
    assert forall e, x :: MayLink(v, e, x) ==> MayLink(h, e, x);
  }

  lemma CutTrackView(g: Graph, d: Id, t: Track, u: Track)
    requires InStep(g, t) && d in g
    ensures View(CutTrack(g, d, t), u) ==
            if t == u then Unlinked(View(g, u), d) else View(g, u)
  {
    assert g[d].From(t).Some? ==> Names(View(g, t), d, g[d].From(t).value);
  }

  /** Cutting an outgoing connection off takes its own two links and no others. */
  lemma CutToKeeps(g: Graph, d: Id, t: Track)
    requires Consistent(g) && d in g && g[d].direction == Out
    ensures InStep(CutTo(g, d), t)
    ensures View(CutTo(g, d), t) == Unlinked(View(g, t), d)
  {
    var h := CutTrack(g, d, Audio);
    CutTrackView(g, d, Audio, Audio);
    CutTrackView(g, d, Audio, Video);
    CutTrackView(h, d, Video, Audio);
    CutTrackView(h, d, Video, Video);
    assert View(h, Video)[d].from == g[d].From(Video);
    UnlinkedOk(View(g, t), d);
  }

  /** A connection that no link touches can go. */
  lemma UnlinkedGoes(g: Graph, id: Id, t: Track)
    requires InStep(g, t) && (id in g ==> g[id].To(t) == [] && g[id].From(t).None?)
    ensures InStep(g - {id}, t)
    ensures forall d, s :: Names(View(g - {id}, t), d, s) <==> Names(View(g, t), d, s)
  {
    var v, h := View(g, t), View(g - {id}, t);
    assert h == v - {id};
    forall d, s ensures Names(h, d, s) <==> Names(v, d, s) {
      if Names(v, d, s) && d == id {
        assert false;
      }
    }
    forall d, s ensures Feeds(h, s, d) <==> Feeds(v, s, d) {
    }
    forall d, s | Names(h, d, s) ensures MayLink(h, d, s) {
      assert Names(v, d, s) && Feeds(v, s, d) && Feeds(h, s, d) && MayLink(v, d, s);
    }
  }

  class Connections {
    var connections: Graph

    ghost predicate Valid()
      reads this
    {
      Consistent(connections)
    }

    constructor ()
      ensures Valid() && connections == map[]
    {
      connections := map[];
    }

    method AddConnection(id: Id, direction: Direction, ready: set<Track>) returns (ok: bool)
      modifies this
      ensures ok <==> id !in old(connections)
      ensures connections ==
              if ok then old(connections)[id := Connection(direction, ready, None, None, [], [])] else old(connections)
      ensures old(Valid()) ==> Valid()
    {
      ok := id !in connections;
      if ok {
        ghost var was := connections;
        connections := connections[id := Connection(direction, ready, None, None, [], [])];
        if Consistent(was) {
          NewcomerUnlinked(was, id, connections[id], Audio);
          NewcomerUnlinked(was, id, connections[id], Video);
        }
      }
    }

    method LinkupConnection(id: Id, audioFrom: Option<Id>, videoFrom: Option<Id>) returns (ok: bool)
      modifies this
      ensures connections == Linkup(old(connections), id, audioFrom, videoFrom)
      ensures ok <==> Servable(old(connections), id, Audio, audioFrom) && Servable(old(connections), id, Video, videoFrom)
    {
      if id !in connections {
        return false;
      }
      var asked := [(Audio, audioFrom), (Video, videoFrom)];
      for i := 0 to |asked|
        invariant id in connections
        invariant i == 0 ==> connections == old(connections)
        invariant i == 1 ==> CanLink(old(connections), id, Audio, audioFrom)
                             && connections == LinkTrack(old(connections), id, Audio, audioFrom)
        invariant i == 2 ==> CanLink(old(connections), id, Audio, audioFrom) && CanLink(old(connections), id, Video, videoFrom)
                             && connections == Linkup(old(connections), id, audioFrom, videoFrom)
      {
        var (track, from) := asked[i];
        if from.Some? {
          if from.value !in connections || track !in connections[id].ready {
            return false;
          }
          connections := connections[from.value := connections[from.value].WithTo(track, connections[from.value].To(track) + [id])];
          connections := connections[id := connections[id].WithFrom(track, from)];
        }
      }
      ok := true;
    }

    method CutLink(d: Id, s: Id, t: Track)
      requires d in connections && s in connections && connections[s].direction == In
      modifies this
      ensures connections == WithoutLink(old(connections), d, s, t)
    {
      if connections[d].direction == Out && connections[d].From(t) == Some(s) {
        if t in connections[d].ready {
          connections := connections[s := connections[s].WithTo(t, Minus(connections[s].To(t), {d}))];
        }
        connections := connections[d := connections[d].WithFrom(t, None)];
      }
    }

    method CutLinksTo(d: Id, s: Id, ghost g: Graph, ghost seen: set<Id>)
      requires PartlyCut(g, connections, s, seen) && d in g && d !in seen
      modifies this
      ensures PartlyCut(g, connections, s, seen + {d})
    {
      OneMoreCut(g, connections, d, s, seen);
      CutLink(d, s, Audio);
      CutLink(d, s, Video);
    }

    method CutOffFrom(id: Id)
      modifies this
      ensures connections == CutFrom(old(connections), id)
    {
      if id !in connections || connections[id].direction != In {
        return;
      }
      ghost var g := connections;
      var rest := connections.Keys;
      ghost var seen: set<Id> := {};
      NothingCut(g, id);
      while |rest| > 0
        invariant rest + seen == g.Keys && rest !! seen
        invariant PartlyCut(g, connections, id, seen)
        decreases |rest|
      {
        var d :| d in rest;
        CutLinksTo(d, id, g, seen);
        rest, seen := rest - {d}, seen + {d};
      }
      assert rest == {} && seen == g.Keys;
      AllCut(g, connections, id);
    }

    /** The source reads a receiver that is not there only when the two places were out of step before. */
    method CutOffTo(id: Id) returns (threw: bool)
      modifies this
      ensures threw <==> Trips(old(connections), id, Audio) || Trips(old(connections), id, Video)
      ensures connections ==
              if Trips(old(connections), id, Audio) then old(connections)
              else if Trips(old(connections), id, Video) then CutTrack(old(connections), id, Audio)
              else CutTo(old(connections), id)
      ensures threw ==> !old(Valid())
    {
      threw := false;
      if id !in connections || connections[id].direction != Out {
        return;
      }
      ghost var g := connections;
      TripsLater(g, id);
      var tracks := [Audio, Video];
      for i := 0 to 2
        invariant id in connections && connections.Keys == g.Keys
        invariant i >= 1 ==> !Trips(g, id, Audio)
        invariant i >= 2 ==> !Trips(g, id, Video)
        invariant connections == if i == 0 then g else if i == 1 then CutTrack(g, id, Audio) else CutTo(g, id)
      {
        var track := tracks[i];
        if HasSource(connections, id, track) {
          if track !in connections[id].ready {
            OutOfStep(g, id, track);
            return true;
          }
          var s := connections[id].From(track).value;
          connections := connections[s := connections[s].WithTo(track, Minus(connections[s].To(track), {id}))];
          connections := connections[id := connections[id].WithFrom(track, None)];
        }
      }
    }

    /** Both directions of a cut leave every other link as it was and keep the two places in step. */
    method CutoffConnection(id: Id) returns (ok: bool)
      requires Valid()
      modifies this
      ensures Valid() && (ok <==> id in connections) && connections.Keys == old(connections).Keys
      ensures forall t, d, s :: Names(View(connections, t), d, s) <==>
                                Names(View(old(connections), t), d, s) && d != id && s != id
    {
      ok := id in connections;
      if ok {
        CutBoth(id);
      }
    }

    method CutBoth(id: Id)
      requires Valid() && id in connections
      modifies this
      ensures Valid() && connections.Keys == old(connections).Keys
      ensures forall t, d, s :: Names(View(connections, t), d, s) <==>
                                Names(View(old(connections), t), d, s) && d != id && s != id
    {
      ghost var g := connections;
      if connections[id].direction == In {
        CutOffFrom(id);
      } else {
        var threw := CutOffTo(id);
      }
      CutLinks(g, connections, id, Audio);
      CutLinks(g, connections, id, Video);
      forall t, d, s ensures Names(View(connections, t), d, s) <==> Names(View(g, t), d, s) && d != id && s != id {
        assert t == Audio || t == Video;
      }
    }

    /** A connection goes with all its links; no connection names it any more. */
    method RemoveConnection(id: Id) returns (ok: bool)
      requires Valid()
      modifies this
      ensures Valid() && (ok <==> id in old(connections)) && connections.Keys == old(connections).Keys - {id}
      ensures forall t, d, s :: Names(View(connections, t), d, s) <==>
                                Names(View(old(connections), t), d, s) && d != id && s != id
    {
      ok := id in connections;
      if ok {
        CutBoth(id);
        Disappear(connections, id);
        connections := connections - {id};
      }
    }
  }

  lemma Disappear(g: Graph, id: Id)
    requires Consistent(g) && id in g
    requires forall t, d, s :: Names(View(g, t), d, s) ==> d != id && s != id
    ensures Consistent(g - {id})
    ensures forall t, d, s :: Names(View(g - {id}, t), d, s) <==> Names(View(g, t), d, s)
  {
    NoLinks(g, id, Audio);
    NoLinks(g, id, Video);
    UnlinkedGoes(g, id, Audio);
    UnlinkedGoes(g, id, Video);
    forall t, d, s ensures Names(View(g - {id}, t), d, s) <==> Names(View(g, t), d, s) {
      assert t == Audio || t == Video;
    }
  }

  lemma CutLinks(g: Graph, h: Graph, id: Id, t: Track)
    requires Consistent(g) && id in g && h == if g[id].direction == In then CutFrom(g, id) else CutTo(g, id)
    ensures InStep(h, t) && h.Keys == g.Keys
    ensures forall d, s :: Names(View(h, t), d, s) <==> Names(View(g, t), d, s) && d != id && s != id
  {
    var v := View(g, t);
    if g[id].direction == In {
      CutFromKeeps(g, id, t);
      FreedOk(v, id);
      assert h.Keys == g.Keys;
    } else {
      CutToKeeps(g, id, t);
      UnlinkedOk(v, id);
      assert View(h, t).Keys == h.Keys && v.Keys == g.Keys;
      forall d, s ensures Names(View(h, t), d, s) <==> Names(v, d, s) && d != id && s != id {
        assert Names(v, d, s) ==> MayLink(v, d, s);
      }
    }
  }

  lemma NoLinks(g: Graph, id: Id, t: Track)
    requires InStep(g, t) && id in g
    requires forall d, s :: Names(View(g, t), d, s) ==> d != id && s != id
    ensures g[id].To(t) == [] && g[id].From(t).None?
  {
    var v := View(g, t);
    assert v[id].from.Some? ==> Names(v, id, v[id].from.value);
    forall d: Id ensures multiset(g[id].To(t))[d] == 0 {
      assert d in g[id].To(t) <==> Feeds(v, id, d);
    }
  }

  function WithoutLink(g: Graph, d: Id, s: Id, t: Track): Graph
    requires d in g && s in g
  {
    if g[d].direction == Out && g[d].From(t) == Some(s) then
      var cut := if t in g[d].ready then g[s := g[s].WithTo(t, Minus(g[s].To(t), {d}))] else g;
      cut[d := cut[d].WithFrom(t, None)]
    else g
  }

  /** The links to the destinations in `seen` have been cut. */
  ghost predicate PartlyCut(g: Graph, now: Graph, s: Id, seen: set<Id>) {
    && s in g && g[s].direction == In && now.Keys == g.Keys
    && (forall d <- g :: d != s ==> now[d] == if d in seen && g[d].direction == Out then Uncut(g[d], s) else g[d])
    && now[s] == g[s].(audioTo := Minus(g[s].audioTo, Fed(g, s, Audio) * seen),
                       videoTo := Minus(g[s].videoTo, Fed(g, s, Video) * seen))
  }

  lemma NothingCut(g: Graph, s: Id)
    requires s in g && g[s].direction == In
    ensures PartlyCut(g, g, s, {})
  {
    MinusNothing(g[s].audioTo, {});
    MinusNothing(g[s].videoTo, {});
    assert Fed(g, s, Audio) * {} == {} && Fed(g, s, Video) * {} == {};
  }

  lemma OneMoreFed(g: Graph, d: Id, s: Id, seen: set<Id>, t: Track)
    requires s in g
    ensures var l := Minus(g[s].To(t), Fed(g, s, t) * seen);
            Minus(g[s].To(t), Fed(g, s, t) * (seen + {d})) == if d in Fed(g, s, t) then Minus(l, {d}) else l
  {
    var fed := Fed(g, s, t);
    if d in fed {
      MinusTwice(g[s].To(t), fed * seen, {d});
      assert fed * (seen + {d}) == fed * seen + {d};
    } else {
      assert fed * (seen + {d}) == fed * seen;
    }
  }

  lemma OneMoreCut(g: Graph, now: Graph, d: Id, s: Id, seen: set<Id>)
    requires PartlyCut(g, now, s, seen) && d in g && d !in seen
    ensures PartlyCut(g, WithoutLink(WithoutLink(now, d, s, Audio), d, s, Video), s, seen + {d})
  {
    OneMoreFed(g, d, s, seen, Audio);
    OneMoreFed(g, d, s, seen, Video);
    if d != s && g[d].direction == Out {
      OutCut(g, now, d, s, seen);
    } else {
      assert d !in Fed(g, s, Audio) && d !in Fed(g, s, Video);
      assert now[d].direction == g[d].direction;
    }
  }

  lemma OutCut(g: Graph, now: Graph, d: Id, s: Id, seen: set<Id>)
    requires d in now && s in now && d in g && s in g && d != s && now[d] == g[d] && g[d].direction == Out
    ensures var h := WithoutLink(WithoutLink(now, d, s, Audio), d, s, Video);
            && h.Keys == now.Keys && h[d] == Uncut(g[d], s)
            && (forall e <- now :: e != d && e != s ==> h[e] == now[e])
            && h[s] == now[s].(audioTo := if d in Fed(g, s, Audio) then Minus(now[s].audioTo, {d}) else now[s].audioTo,
                               videoTo := if d in Fed(g, s, Video) then Minus(now[s].videoTo, {d}) else now[s].videoTo)
  {
  }

  lemma AllCut(g: Graph, now: Graph, s: Id)
    requires PartlyCut(g, now, s, g.Keys)
    ensures now == CutFrom(g, s)
  {
    assert Fed(g, s, Audio) * g.Keys == Fed(g, s, Audio) && Fed(g, s, Video) * g.Keys == Fed(g, s, Video);
  }

  lemma NewcomerUnlinked(g: Graph, id: Id, c: Connection, t: Track)
    requires InStep(g, t) && id !in g && c.From(t).None? && c.To(t) == []
    ensures InStep(g[id := c], t)
  {
    var v, h := View(g, t), View(g[id := c], t);
    assert h == v[id := h[id]];
    forall d, s ensures Names(h, d, s) <==> Names(v, d, s) {
    }
    forall d, s ensures Feeds(h, s, d) <==> Feeds(v, s, d) {
    }
    assert forall d, s :: MayLink(v, d, s) ==> MayLink(h, d, s);
  }
}
