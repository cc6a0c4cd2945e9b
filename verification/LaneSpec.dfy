/** The lane resolver as functions of the map and of the cache contents. */
module LaneSpec {
  import opened Base
  import opened Projection

  datatype Lane = Lane(id: Id, subtype: Option<string>, centerline: seq<Local>)

  datatype LaneInfo = LaneInfo(id: Id, gps: Gps, local: Local, orientation: Orientation)

  /** The loaded map. `reachable` is the routing graph's answer within 8 km, in its own order;
      the projections and the heading computation are left abstract. */
  datatype World = World(
    lanes: seq<Lane>,
    reachable: Id -> seq<Lane>,
    gpsToLocal: Gps -> Local,
    localToGps: Local -> Gps,
    heading: seq<Local> -> Orientation,
    root: real -> real,
    offsetX: real,
    offsetY: real,
    garbage: Local)

  /** What lanelet2 guarantees of a loaded map: distinct nonzero ids, reachable lanes are map lanes. */
  ghost predicate WellFormed(w: World) {
    && (forall i, j :: 0 <= i < j < |w.lanes| ==> LanesApart(w, i, j))
    && (forall i :: 0 <= i < |w.lanes| ==> w.lanes[i].id != INVALID_ID)
    && (forall id, i :: 0 <= i < |w.reachable(id)| ==> w.reachable(id)[i] in w.lanes)
  }

  ghost predicate LanesApart(w: World, i: nat, j: nat)
    requires i < j < |w.lanes|
  {
    w.lanes[i].id != w.lanes[j].id
  }

  predicate Drivable(l: Lane) {
    !(l.subtype == Some("crosswalk") || l.subtype == Some("walkway")
      || l.subtype == Some("stairs") || l.subtype == Some("pedestrian"))
  }

  predicate Usable(l: Lane) {
    Drivable(l) && |l.centerline| > 0
  }

  /** Distance from the target to the shifted middle point of a lane, squared. */
  function MidDist2(w: World, l: Lane, target: Local): real
    requires |l.centerline| > 0
  {
    var mid := l.centerline[|l.centerline| / 2];
    Square(w.offsetX + mid.x - target.x) + Square(w.offsetY + mid.y - target.y)
  }

  /** The search loop: the first usable candidate of least distance. */
  function Best(w: World, cands: seq<Lane>, target: Local): (best: Option<Lane>)
    ensures best.Some? ==> Usable(best.value) && best.value in cands
  {
    if cands == [] then None
    else
      var n := |cands| - 1;
      var best := Best(w, cands[..n], target);
      if Usable(cands[n]) && (best.None? || MidDist2(w, cands[n], target) < MidDist2(w, best.value, target))
      then Some(cands[n]) else best
  }

  /** l stands at index k, is usable, beats every earlier usable candidate and ties or beats the rest. */
  ghost predicate FirstNearestAt(w: World, cands: seq<Lane>, target: Local, k: int) {
    && 0 <= k < |cands| && Usable(cands[k])
    && (forall i :: 0 <= i < |cands| && Usable(cands[i]) ==>
          MidDist2(w, cands[k], target) <= MidDist2(w, cands[i], target))
    && (forall i :: 0 <= i < k && Usable(cands[i]) ==> MidDist2(w, cands[k], target) < MidDist2(w, cands[i], target))
  }

  lemma {:induction false} BestIsFirstNearest(w: World, cands: seq<Lane>, target: Local) returns (k: int)
    ensures Best(w, cands, target).None? <==> forall i :: 0 <= i < |cands| ==> !Usable(cands[i])
    ensures Best(w, cands, target).Some? ==>
      FirstNearestAt(w, cands, target, k) && Best(w, cands, target) == Some(cands[k])
  {
    k := -1;
    if cands != [] {
      var n := |cands| - 1;
      k := BestIsFirstNearest(w, cands[..n], target);
      var before := Best(w, cands[..n], target);
      if Usable(cands[n]) && (before.None? || MidDist2(w, cands[n], target) < MidDist2(w, before.value, target)) {
        k := n;
      }
      assert forall i :: 0 <= i < n ==> cands[..n][i] == cands[i];
    }
  }

  /** The lanes from which ref can be reached: each lane's own reachable set is searched. */
  function Reaching(w: World, lanes: seq<Lane>, ref: Id): (r: seq<Lane>)
    ensures forall l :: l in r <==> l in lanes && CanReach(w, l.id, ref)
  {
    if lanes == [] then []
    else
      var n := |lanes| - 1;
      assert lanes == lanes[..n] + [lanes[n]];
      var before := Reaching(w, lanes[..n], ref);
      if CanReach(w, lanes[n].id, ref) then before + [lanes[n]] else before
  }

  predicate CanReach(w: World, from: Id, ref: Id) {
    exists i :: 0 <= i < |w.reachable(from)| && w.reachable(from)[i].id == ref
  }

  /** The lanes findNearestConnectedLane searches, in its order. */
  function Connected(w: World, ref: Id, forward: bool): seq<Lane> {
    if forward then w.reachable(ref) else Reaching(w, w.lanes, ref)
  }

  /** The first element with this id. */
  function First<T>(s: seq<T>, key: T -> Id, id: Id): (x: Option<T>)
    ensures x.Some? ==> key(x.value) == id && x.value in s
    ensures x.None? ==> forall i :: 0 <= i < |s| ==> key(s[i]) != id
  {
    if s == [] then None
    else if key(s[0]) == id then Some(s[0]) else First(s[1..], key, id)
  }

  function LaneOf(lanes: seq<Lane>, id: Id): (l: Option<Lane>)
    ensures l.Some? ==> l.value.id == id && l.value in lanes
    ensures l.None? ==> forall i :: 0 <= i < |lanes| ==> lanes[i].id != id
  {
    First(lanes, (l: Lane) => l.id, id)
  }

  lemma {:induction false} LaneOfMember(w: World, l: Lane)
    requires WellFormed(w) && l in w.lanes
    ensures LaneOf(w.lanes, l.id) == Some(l)
  {
    var found := LaneOf(w.lanes, l.id);
    var i :| 0 <= i < |w.lanes| && w.lanes[i] == l;
    var j :| 0 <= j < |w.lanes| && w.lanes[j] == found.value;
    assert i < j ==> LanesApart(w, i, j);
    assert j < i ==> LanesApart(w, j, i);
  }

  function MakeLaneInfo(w: World, l: Lane, gps: Gps): LaneInfo {
    var p := Project(l.centerline, w.gpsToLocal(gps), w.garbage);
    LaneInfo(l.id, w.localToGps(p), p, w.heading(l.centerline))
  }

  /** The cache scan: the first entry with this id. */
  function Find(cache: seq<LaneInfo>, id: Id): (info: Option<LaneInfo>)
    ensures info.Some? ==> info.value.id == id && info.value in cache
    ensures info.None? ==> forall i :: 0 <= i < |cache| ==> cache[i].id != id
  {
    First(cache, (info: LaneInfo) => info.id, id)
  }

  /** A lookup answers an entry, finds nothing, or an exception leaves it. */
  datatype Answer = Found(info: LaneInfo) | Missing | Threw

  datatype Look = Look(cache: seq<LaneInfo>, answer: Answer)

  /** Answer from the cache, or resolve the lane from gps and append it. */
  function Resolve(w: World, cache: seq<LaneInfo>, l: Lane, gps: Gps): Look {
    match Find(cache, l.id)
    case Some(info) => Look(cache, Found(info))
    case None =>
      var info := MakeLaneInfo(w, l, gps);
      Look(cache + [info], Found(info))
  }

  function NearestLane(w: World, gps: Gps): Option<Lane> {
    Best(w, w.lanes, w.gpsToLocal(gps))
  }

  function NearestConnected(w: World, gps: Gps, ref: Id, forward: bool): Option<Lane> {
    Best(w, Connected(w, ref, forward), w.gpsToLocal(gps))
  }

  function FindNearestLane(w: World, cache: seq<LaneInfo>, gps: Gps): Look {
    match NearestLane(w, gps)
    case None => Look(cache, Missing)
    case Some(l) => Resolve(w, cache, l, gps)
  }

  /** The reference lane is fetched first; an id that is not in the map throws. */
  function FindNearestConnectedLane(w: World, cache: seq<LaneInfo>, gps: Gps, ref: Id, forward: bool): Look {
    if LaneOf(w.lanes, ref).None? then Look(cache, Threw)
    else match NearestConnected(w, gps, ref, forward)
      case None => Look(cache, Missing)
      case Some(l) => Resolve(w, cache, l, gps)
  }

  function MidGps(w: World, l: Lane): Gps
    requires |l.centerline| > 0
  {
    w.localToGps(l.centerline[|l.centerline| / 2])
  }

  /** An uncached lane without centerline is read out of bounds, which is treated as a crash. */
  function GetLaneById(w: World, cache: seq<LaneInfo>, id: Id): Look {
    match Find(cache, id)
    case Some(info) => Look(cache, Found(info))
    case None =>
      match LaneOf(w.lanes, id)
      case None => Look(cache, Missing)
      case Some(l) => if |l.centerline| == 0 then Look(cache, Threw) else Resolve(w, cache, l, MidGps(w, l))
  }

  // ---- the cache over any sequence of lookups ----

  datatype Lookup = Nearest(gps: Gps) | NearConnected(gps: Gps, ref: Id, forward: bool) | ById(id: Id)

  function Ask(w: World, cache: seq<LaneInfo>, q: Lookup): Look {
    match q
    case Nearest(gps) => FindNearestLane(w, cache, gps)
    case NearConnected(gps, ref, forward) => FindNearestConnectedLane(w, cache, gps, ref, forward)
    case ById(id) => GetLaneById(w, cache, id)
  }

  /** The lane a lookup is about, by a search that never looks at the cache. */
  function Naive(w: World, q: Lookup): Option<Lane> {
    match q
    case Nearest(gps) => NearestLane(w, gps)
    case NearConnected(gps, ref, forward) => NearestConnected(w, gps, ref, forward)
    case ById(id) => LaneOf(w.lanes, id)
  }

  /** The coordinate that is projected when the lookup has to build the entry. */
  function SnappedGps(w: World, q: Lookup): Option<Gps> {
    match q
    case Nearest(gps) => Some(gps)
    case NearConnected(gps, _, _) => Some(gps)
    case ById(id) =>
      match LaneOf(w.lanes, id)
      case Some(l) => if |l.centerline| > 0 then Some(MidGps(w, l)) else None
      case None => None
  }

  function CacheAfter(w: World, qs: seq<Lookup>): seq<LaneInfo> {
    if qs == [] then [] else Ask(w, CacheAfter(w, qs[..|qs|-1]), qs[|qs|-1]).cache
  }

  /** What the lookups of a history answered, one after another. */
  function AnswersAfter(w: World, qs: seq<Lookup>): (answers: seq<Answer>)
    ensures |answers| == |qs|
  {
    if qs == [] then []
    else
      var n := |qs| - 1;
      AnswersAfter(w, qs[..n]) + [Ask(w, CacheAfter(w, qs[..n]), qs[n]).answer]
  }

  ghost predicate Apart(cache: seq<LaneInfo>, i: nat, j: nat)
    requires i < j < |cache|
  {
    cache[i].id != cache[j].id
  }

  ghost predicate DistinctIds(cache: seq<LaneInfo>) {
    forall i, j :: 0 <= i < j < |cache| ==> Apart(cache, i, j)
  }

  ghost predicate OnMap(w: World, cache: seq<LaneInfo>, i: nat)
    requires i < |cache|
  {
    LaneOf(w.lanes, cache[i].id).Some? && Placed(w, LaneOf(w.lanes, cache[i].id).value, cache[i])
  }

  /** The entry has the heading of its lane and lies on its centerline. */
  ghost predicate Placed(w: World, l: Lane, info: LaneInfo) {
    && info.gps == w.localToGps(info.local) && info.orientation == w.heading(l.centerline)
    && (|l.centerline| >= 2 ==> OnLine(l.centerline, info.local))
  }

  /** The entry lies where the centerline is nearest to the coordinate. */
  lemma EntryPlaced(w: World, l: Lane, gps: Gps)
    ensures Placed(w, l, MakeLaneInfo(w, l, gps))
    ensures |l.centerline| >= 2 ==> NearestOnLine(l.centerline, w.gpsToLocal(gps), MakeLaneInfo(w, l, gps).local)
  {
    if |l.centerline| >= 2 {
      ProjectionIsOptimal(l.centerline, w.gpsToLocal(gps), w.garbage);
    }
  }

  ghost predicate CacheOk(w: World, cache: seq<LaneInfo>) {
    && DistinctIds(cache)
    && (forall i :: 0 <= i < |cache| ==> OnMap(w, cache, i))
  }

  lemma {:induction false} FindPrefix(c: seq<LaneInfo>, d: seq<LaneInfo>, id: Id)
    requires c <= d && Find(c, id).Some?
    ensures Find(d, id) == Find(c, id)
  {
    if c[0].id != id {
      FindPrefix(c[1..], d[1..], id);
    }
  }

  /** Entries with distinct ids are found at their own index. */
  lemma {:induction false} FindAt(w: World, cache: seq<LaneInfo>, k: nat)
    requires CacheOk(w, cache) && k < |cache|
    ensures Find(cache, cache[k].id) == Some(cache[k])
  {
    var found := Find(cache, cache[k].id);
    var i :| 0 <= i < |cache| && cache[i] == found.value;
    assert i < k ==> Apart(cache, i, k);
    assert k < i ==> Apart(cache, k, i);
  }

  lemma CachedOnMap(w: World, cache: seq<LaneInfo>, id: Id)
    requires CacheOk(w, cache) && Find(cache, id).Some?
    ensures LaneOf(w.lanes, id).Some? && Placed(w, LaneOf(w.lanes, id).value, Find(cache, id).value)
  {
    var i :| 0 <= i < |cache| && cache[i] == Find(cache, id).value;
    assert OnMap(w, cache, i);
  }

  lemma CacheSnoc(w: World, cache: seq<LaneInfo>, info: LaneInfo)
    requires CacheOk(w, cache) && Find(cache, info.id).None? && LaneOf(w.lanes, info.id).Some?
    requires Placed(w, LaneOf(w.lanes, info.id).value, info)
    ensures CacheOk(w, cache + [info])
  {
    var grown := cache + [info];
    forall i, j | 0 <= i < j < |grown|
      ensures Apart(grown, i, j)
    {
      if j < |cache| {
        assert Apart(cache, i, j);
      }
    }
    forall i | 0 <= i < |grown|
      ensures OnMap(w, grown, i)
    {
      if i < |cache| {
        assert OnMap(w, cache, i);
      }
    }
  }

  /** What one lookup does to a good cache: at most one entry is appended, nothing is overwritten. */
  lemma {:induction false} AskFacts(w: World, cache: seq<LaneInfo>, q: Lookup)
    requires WellFormed(w) && CacheOk(w, cache)
    ensures var look := Ask(w, cache, q);
      && cache <= look.cache && |look.cache| <= |cache| + 1 && CacheOk(w, look.cache)
      && (look.answer.Found? ==> Naive(w, q).Some? && look.answer.info.id == Naive(w, q).value.id
                                 && Find(look.cache, look.answer.info.id) == Some(look.answer.info))
      && (look.answer.Missing? ==> Naive(w, q).None?)
      && (forall id :: Find(cache, id).Some? ==> Find(look.cache, id) == Find(cache, id))
  {
    var look := Ask(w, cache, q);
    match Naive(w, q)
    case None =>
      if q.ById? && Find(cache, q.id).Some? {
        CachedOnMap(w, cache, q.id);
      }
    case Some(l) =>
      assert l in w.lanes;
      if look.answer.Found? && Find(cache, l.id).None? {
        LaneOfMember(w, l);
        EntryPlaced(w, l, SnappedGps(w, q).value);
        CacheSnoc(w, cache, look.answer.info);
        FindAt(w, look.cache, |cache|);
      }
    forall id | Find(cache, id).Some?
      ensures Find(look.cache, id) == Find(cache, id)
    {
      FindPrefix(cache, look.cache, id);
    }
  }

  lemma {:induction false} CacheOkAfter(w: World, qs: seq<Lookup>)
    requires WellFormed(w)
    ensures CacheOk(w, CacheAfter(w, qs))
  {
    if qs != [] {
      var n := |qs| - 1;
      CacheOkAfter(w, qs[..n]);
      AskFacts(w, CacheAfter(w, qs[..n]), qs[n]);
    }
  }

  lemma CacheGrows(w: World, qs: seq<Lookup>)
    requires WellFormed(w) && qs != []
    ensures CacheAfter(w, qs[..|qs|-1]) <= CacheAfter(w, qs)
  {
    CacheOkAfter(w, qs[..|qs|-1]);
    AskFacts(w, CacheAfter(w, qs[..|qs|-1]), qs[|qs|-1]);
  }

  /** Over every lookup history the cache stays within the capacity reserved for the map and keeps
      every entry where it is. */
  lemma {:induction false} CacheOverHistory(w: World, qs: seq<Lookup>, m: nat)
    requires WellFormed(w) && m <= |qs|
    ensures CacheOk(w, CacheAfter(w, qs)) && |CacheAfter(w, qs)| <= |w.lanes|
    ensures CacheAfter(w, qs[..m]) <= CacheAfter(w, qs)
    decreases |qs|
  {
    CacheOkAfter(w, qs);
    WithinCapacity(w, CacheAfter(w, qs));
    if m == |qs| {
      assert qs[..m] == qs;
    } else {
      CacheOverHistory(w, qs[..|qs|-1], m);
      assert qs[..|qs|-1][..m] == qs[..m];
      CacheGrows(w, qs);
    }
  }

  /** A new entry keeps the cache good, and within the capacity reserved for the map. */
  lemma EntryFits(w: World, cache: seq<LaneInfo>, l: Lane, gps: Gps)
    requires WellFormed(w) && CacheOk(w, cache) && l in w.lanes && Find(cache, l.id).None?
    ensures CacheOk(w, cache + [MakeLaneInfo(w, l, gps)]) && |cache| < |w.lanes|
  {
    LaneOfMember(w, l);
    EntryPlaced(w, l, gps);
    CacheSnoc(w, cache, MakeLaneInfo(w, l, gps));
    WithinCapacity(w, cache + [MakeLaneInfo(w, l, gps)]);
  }

  function Ids(cache: seq<LaneInfo>): set<Id> {
    set i | 0 <= i < |cache| :: cache[i].id
  }

  function LaneIds(lanes: seq<Lane>): set<Id> {
    set i | 0 <= i < |lanes| :: lanes[i].id
  }

  lemma {:induction false} LaneIdsBound(lanes: seq<Lane>)
    ensures |LaneIds(lanes)| <= |lanes|
  {
    if lanes != [] {
      var n := |lanes| - 1;
      LaneIdsBound(lanes[..n]);
      assert LaneIds(lanes) == LaneIds(lanes[..n]) + {lanes[n].id};
    }
  }

  lemma {:induction false} IdsCount(cache: seq<LaneInfo>)
    requires DistinctIds(cache)
    ensures |Ids(cache)| == |cache|
  {
    if cache != [] {
      var n := |cache| - 1;
      assert DistinctIds(cache[..n]) by {
        forall i, j | 0 <= i < j < n
          ensures Apart(cache[..n], i, j)
        {
          assert Apart(cache, i, j);
        }
      }
      IdsCount(cache[..n]);
      assert Ids(cache) == Ids(cache[..n]) + {cache[n].id};
      forall id | id in Ids(cache[..n])
        ensures id != cache[n].id
      {
        var i :| 0 <= i < n && cache[..n][i].id == id;
        assert Apart(cache, i, n);
      }
    }
  }

  lemma SubsetSize(a: set<Id>, b: set<Id>)
    requires a <= b
    ensures |a| <= |b|
  {
    assert b == a + (b - a);
  }

  lemma WithinCapacity(w: World, cache: seq<LaneInfo>)
    requires CacheOk(w, cache)
    ensures |cache| <= |w.lanes|
  {
    LaneIdsBound(w.lanes);
    IdsCount(cache);
    forall id | id in Ids(cache)
      ensures id in LaneIds(w.lanes)
    {
      var k :| 0 <= k < |cache| && cache[k].id == id;
      assert OnMap(w, cache, k);
      var l := LaneOf(w.lanes, id).value;
      var i :| 0 <= i < |w.lanes| && w.lanes[i] == l;
    }
    SubsetSize(Ids(cache), LaneIds(w.lanes));
  }

  /** Each entry was built by the first lookup of the history that hit its lane, from that lookup's
      own coordinate; no earlier history held the lane. */
  lemma {:induction false} FirstHitBuildsEntry(w: World, qs: seq<Lookup>, id: Id) returns (i: nat, l: Lane, gps: Gps)
    requires WellFormed(w) && Find(CacheAfter(w, qs), id).Some?
    ensures i < |qs| && Naive(w, qs[i]) == Some(l) && l.id == id && SnappedGps(w, qs[i]) == Some(gps)
    ensures Find(CacheAfter(w, qs[..i]), id).None?
    ensures var answer := Ask(w, CacheAfter(w, qs[..i]), qs[i]).answer; answer.Found? && answer.info.id == id
    ensures Find(CacheAfter(w, qs), id) == Some(MakeLaneInfo(w, l, gps))
    decreases |qs|
  {
    var n := |qs| - 1;
    CacheOverHistory(w, qs[..n], n);
    var before := CacheAfter(w, qs[..n]);
    AskFacts(w, before, qs[n]);
    if Find(before, id).Some? {
      i, l, gps := FirstHitBuildsEntry(w, qs[..n], id);
      assert qs[..n][..i] == qs[..i];
    } else {
      i := n;
      l, gps := MissBuildsEntry(w, before, qs[n], id);
    }
  }

  /** A lookup that brings a lane into the cache built its entry from its own coordinate. */
  lemma MissBuildsEntry(w: World, cache: seq<LaneInfo>, q: Lookup, id: Id) returns (l: Lane, gps: Gps)
    requires WellFormed(w) && CacheOk(w, cache)
    requires Find(cache, id).None? && Find(Ask(w, cache, q).cache, id).Some?
    ensures Naive(w, q) == Some(l) && l.id == id && SnappedGps(w, q) == Some(gps)
    ensures Ask(w, cache, q).answer.Found? && Ask(w, cache, q).answer.info.id == id
    ensures Find(Ask(w, cache, q).cache, id) == Some(MakeLaneInfo(w, l, gps))
  {
    AskFacts(w, cache, q);
    l, gps := Naive(w, q).value, SnappedGps(w, q).value;
    var look := Ask(w, cache, q);
    assert look.cache == cache + [MakeLaneInfo(w, l, gps)];
    FindAt(w, look.cache, |cache|);
    var info := Find(look.cache, id).value;
    assert info !in cache;
  }

  /** An unknown reference throws, and so does an uncached lane without a centerline. */
  predicate Throws(w: World, cache: seq<LaneInfo>, q: Lookup) {
    match q
    case Nearest(_) => false
    case NearConnected(_, ref, _) => LaneOf(w.lanes, ref).None?
    case ById(id) =>
      Find(cache, id).None? && LaneOf(w.lanes, id).Some? && |LaneOf(w.lanes, id).value.centerline| == 0
  }

  /** The cached search refines the naive one: after any history a lookup that does not throw answers
      null exactly when the naive search finds nothing, and otherwise names the naive lane with its
      heading; only the position is that of the first coordinate that hit the lane. */
  lemma CachedSearchRefinesNaive(w: World, qs: seq<Lookup>, q: Lookup) returns (i: nat, gps: Gps)
    requires WellFormed(w)
    ensures var answer := Ask(w, CacheAfter(w, qs), q).answer;
      && (answer.Threw? <==> Throws(w, CacheAfter(w, qs), q))
      && (answer.Missing? <==> Naive(w, q).None? && !Throws(w, CacheAfter(w, qs), q))
      && (answer.Found? ==>
            && Naive(w, q).Some?
            && i <= |qs| && SnappedGps(w, (qs + [q])[i]) == Some(gps)
            && Find(CacheAfter(w, qs[..i]), answer.info.id).None?
            && answer.info == MakeLaneInfo(w, Naive(w, q).value, gps))
  {
    var cache := CacheAfter(w, qs);
    CacheOverHistory(w, qs, |qs|);
    AskFacts(w, cache, q);
    var all := qs + [q];
    assert all[..|qs|] == qs;
    if Ask(w, cache, q).answer.Found? {
      var id := Ask(w, cache, q).answer.info.id;
      var l: Lane;
      i, l, gps := FirstHitBuildsEntry(w, all, id);
      assert all[..i] == qs[..i];
      LaneOfMember(w, l);
      LaneOfMember(w, Naive(w, q).value);
      assert l == Naive(w, q).value;
    } else {
      i, gps := 0, Gps(0.0, 0.0);
    }
  }
}
