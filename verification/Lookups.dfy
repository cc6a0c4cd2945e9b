/** What the lookups answer, in terms of the map and of the requested coordinates alone. */
module Lookups {
  import opened Base
  import opened Projection
  import opened LaneSpec

  /** The lanes that are searched: not for pedestrians, and with a centerline. */
  predicate Passable(l: Lane) {
    && l.subtype !in {Some("crosswalk"), Some("walkway"), Some("stairs"), Some("pedestrian")}
    && l.centerline != []
  }

  /** The list a search goes through: the lanes reachable from the reference, or the whole map. */
  function Pool(w: World, q: Lookup): seq<Lane> {
    if q.NearConnected? && q.forward then w.reachable(q.ref) else w.lanes
  }

  /** A candidate; the reverse search asks of it that the reference is in its reachable set. */
  predicate Eligible(w: World, q: Lookup, l: Lane) {
    && Passable(l)
    && (q.NearConnected? && !q.forward ==>
          exists i :: 0 <= i < |w.reachable(l.id)| && w.reachable(l.id)[i].id == q.ref)
  }

  /** Squared distance of a lane's middle point, shifted into the local frame, from the target. */
  function Off2(w: World, l: Lane, target: Local): real
    requires |l.centerline| > 0
  {
    var mid := l.centerline[|l.centerline| / 2];
    Dist2(Local(w.offsetX + mid.x, w.offsetY + mid.y, 0.0), target)
  }

  function Cands(w: World, q: Lookup, pool: seq<Lane>): seq<Lane> {
    if q.NearConnected? && !q.forward then Reaching(w, pool, q.ref) else pool
  }

  /** Element k is the first of those satisfying ok at which dist is least. */
  ghost predicate FirstLeast(s: seq<Lane>, ok: Lane -> bool, dist: Lane -> real, k: int) {
    && 0 <= k < |s| && ok(s[k])
    && (forall j :: 0 <= j < |s| && ok(s[j]) ==> dist(s[k]) <= dist(s[j]))
    && (forall j :: 0 <= j < k && ok(s[j]) ==> dist(s[k]) < dist(s[j]))
  }

  ghost predicate Finds(best: Option<Lane>, s: seq<Lane>, ok: Lane -> bool, dist: Lane -> real, k: int) {
    && (best.None? <==> forall j :: 0 <= j < |s| ==> !ok(s[j]))
    && (best.Some? ==> FirstLeast(s, ok, dist, k) && best == Some(s[k]))
  }

  lemma FindsSnoc(best: Option<Lane>, s: seq<Lane>, x: Lane, ok: Lane -> bool, dist: Lane -> real, k: int)
    returns (k': int)
    requires Finds(best, s, ok, dist, k)
    ensures Finds(if ok(x) && (best.None? || dist(x) < dist(best.value)) then Some(x) else best, s + [x], ok, dist, k')
  {
    k' := if ok(x) && (best.None? || dist(x) < dist(best.value)) then |s| else k;
    assert (s + [x])[|s|] == x && forall j :: 0 <= j < |s| ==> (s + [x])[j] == s[j];
  }

  function IsEligible(w: World, q: Lookup): Lane -> bool {
    (l: Lane) => Eligible(w, q, l)
  }

  /** Squared distance of a lane's middle point, shifted into the local frame, from the target. */
  function Distance(w: World, target: Local): Lane -> real {
    (l: Lane) => if |l.centerline| > 0 then Off2(w, l, target) else 0.0
  }

  function MidDistance(w: World, target: Local): Lane -> real {
    (l: Lane) => if |l.centerline| > 0 then MidDist2(w, l, target) else 0.0
  }

  lemma SameDistance(w: World, l: Lane, target: Local)
    ensures MidDistance(w, target)(l) == Distance(w, target)(l)
  {
  }

  lemma LeastByDistance(w: World, q: Lookup, s: seq<Lane>, target: Local, k: int)
    requires FirstLeast(s, IsEligible(w, q), MidDistance(w, target), k)
    ensures FirstLeast(s, IsEligible(w, q), Distance(w, target), k)
  {
    var mid, dist := MidDistance(w, target), Distance(w, target);
    forall j | 0 <= j < |s|
      ensures mid(s[j]) == dist(s[j])
    {
      SameDistance(w, s[j], target);
    }
  }

  lemma CandsSnoc(w: World, q: Lookup, pool: seq<Lane>, x: Lane)
    ensures Cands(w, q, pool + [x]) ==
      Cands(w, q, pool) + if q.NearConnected? && !q.forward && !CanReach(w, x.id, q.ref) then [] else [x]
  {
    assert (pool + [x])[..|pool|] == pool;
  }

  lemma BestSnoc(w: World, c: seq<Lane>, x: Lane, target: Local)
    ensures var best := Best(w, c, target);
      Best(w, c + [x], target) ==
        if Usable(x) && (best.None? || MidDistance(w, target)(x) < MidDistance(w, target)(best.value)) then Some(x)
        else best
  {
    assert (c + [x])[..|c|] == c;
  }

  lemma PassableIsUsable(l: Lane)
    ensures Passable(l) <==> Usable(l)
  {
  }

  ghost predicate Searched(w: World, q: Lookup, pool: seq<Lane>, target: Local, k: int) {
    Finds(Best(w, Cands(w, q, pool), target), pool, IsEligible(w, q), MidDistance(w, target), k)
  }

  lemma SearchSnoc(w: World, q: Lookup, s: seq<Lane>, x: Lane, target: Local, k: int) returns (k': int)
    requires Searched(w, q, s, target, k)
    ensures Searched(w, q, s + [x], target, k')
  {
    var c := Cands(w, q, s);
    k' := FindsSnoc(Best(w, c, target), s, x, IsEligible(w, q), MidDistance(w, target), k);
    CandsSnoc(w, q, s, x);
    BestSnoc(w, c, x, target);
    PassableIsUsable(x);
    assert c + [] == c;
  }

  lemma {:induction false} SearchFinds(w: World, q: Lookup, pool: seq<Lane>, target: Local) returns (k: int)
    ensures Searched(w, q, pool, target, k)
  {
    k := -1;
    if pool != [] {
      var n := |pool| - 1;
      k := SearchFinds(w, q, pool[..n], target);
      k := SearchSnoc(w, q, pool[..n], pool[n], target, k);
      assert pool[..n] + [pool[n]] == pool;
    }
  }

  // ---- which lookup put a lane into the cache ----

  function AnswerAt(w: World, all: seq<Lookup>, j: nat): Answer
    requires j < |all|
  {
    Ask(w, CacheAfter(w, all[..j]), all[j]).answer
  }

  /** Lookup i is the first of the history that answered the lane. */
  ghost predicate FirstAnswer(w: World, all: seq<Lookup>, i: nat, id: Id) {
    && i < |all| && AnswerAt(w, all, i).Found? && AnswerAt(w, all, i).info.id == id
    && forall j :: 0 <= j < i && AnswerAt(w, all, j).Found? ==> AnswerAt(w, all, j).info.id != id
  }

  lemma StaysCached(w: World, all: seq<Lookup>, j: nat, i: nat, id: Id)
    requires WellFormed(w) && j <= i <= |all|
    ensures Find(CacheAfter(w, all[..j]), id).Some? ==> Find(CacheAfter(w, all[..i]), id).Some?
  {
    assert all[..i][..j] == all[..j];
    CacheOverHistory(w, all[..i], j);
    if Find(CacheAfter(w, all[..j]), id).Some? {
      FindPrefix(CacheAfter(w, all[..j]), CacheAfter(w, all[..i]), id);
    }
  }

  lemma NotAnsweredBefore(w: World, all: seq<Lookup>, i: nat, id: Id, j: nat)
    requires WellFormed(w) && j < i <= |all| && Find(CacheAfter(w, all[..i]), id).None?
    requires AnswerAt(w, all, j).Found?
    ensures AnswerAt(w, all, j).info.id != id
  {
    CacheOkAfter(w, all[..j]);
    AskFacts(w, CacheAfter(w, all[..j]), all[j]);
    assert all[..j + 1][..j] == all[..j];
    StaysCached(w, all, j + 1, i, id);
  }

  /** The coordinate that the lookup looks from; by id, the middle of the lane. */
  function LooksFrom(w: World, q: Lookup, l: Lane): Gps
    requires q.ById? ==> |l.centerline| > 0
  {
    match q
    case Nearest(gps) => gps
    case NearConnected(gps, _, _) => gps
    case ById(_) => w.localToGps(l.centerline[|l.centerline| / 2])
  }

  /** The lane that the answer is about: the wanted one, or the first nearest candidate. */
  ghost predicate IsAbout(w: World, q: Lookup, l: Lane) {
    match q
    case ById(id) => l in w.lanes && l.id == id
    case _ => exists k :: FirstLeast(Pool(w, q), IsEligible(w, q), Distance(w, w.gpsToLocal(q.gps)), k)
                          && l == Pool(w, q)[k]
  }

  ghost predicate NoneEligible(w: World, q: Lookup) {
    match q
    case ById(id) => forall i :: 0 <= i < |w.lanes| ==> w.lanes[i].id != id
    case _ => forall j :: 0 <= j < |Pool(w, q)| ==> !Eligible(w, q, Pool(w, q)[j])
  }

  lemma NaiveMeaning(w: World, q: Lookup)
    ensures Naive(w, q).None? <==> NoneEligible(w, q)
    ensures Naive(w, q).Some? ==> IsAbout(w, q, Naive(w, q).value)
  {
    if !q.ById? {
      var k := SearchFinds(w, q, Pool(w, q), w.gpsToLocal(q.gps));
      if Naive(w, q).Some? {
        LeastByDistance(w, q, Pool(w, q), w.gpsToLocal(q.gps), k);
      }
      assert forall j :: 0 <= j < |Pool(w, q)| ==> (IsEligible(w, q)(Pool(w, q)[j]) <==> Eligible(w, q, Pool(w, q)[j]));
    }
  }

  /** What a lookup after any history answers. It throws for an unknown reference and for an uncached lane
      without a centerline; it is null exactly when there is no candidate; otherwise it answers the first
      nearest candidate, with the heading of its centerline, at the point of the centerline that is
      nearest to the coordinate of the first lookup i that answered this lane. */
  lemma LookupMeaning(w: World, qs: seq<Lookup>, q: Lookup) returns (l: Lane, i: nat)
    requires WellFormed(w)
    ensures var answer := Ask(w, CacheAfter(w, qs), q).answer;
      && (answer.Threw? <==> Throws(w, CacheAfter(w, qs), q))
      && (answer.Missing? <==> NoneEligible(w, q) && !Throws(w, CacheAfter(w, qs), q))
      && (answer.Found? ==>
            && IsAbout(w, q, l) && answer.info.id == l.id
            && FirstAnswer(w, qs + [q], i, l.id) && ((qs + [q])[i].ById? ==> |l.centerline| > 0)
            && answer.info.gps == w.localToGps(answer.info.local)
            && answer.info.orientation == w.heading(l.centerline)
            && (|l.centerline| >= 2 ==>
                  NearestOnLine(l.centerline, w.gpsToLocal(LooksFrom(w, (qs + [q])[i], l)), answer.info.local)))
  {
    var _, _ := CachedSearchRefinesNaive(w, qs, q);
    NaiveMeaning(w, q);
    l, i := Lane(0, None, []), 0;
    if Ask(w, CacheAfter(w, qs), q).answer.Found? {
      l, i := FoundMeaning(w, qs, q);
    }
  }

  lemma FoundMeaning(w: World, qs: seq<Lookup>, q: Lookup) returns (l: Lane, i: nat)
    requires WellFormed(w) && Ask(w, CacheAfter(w, qs), q).answer.Found?
    ensures var info := Ask(w, CacheAfter(w, qs), q).answer.info;
      && Naive(w, q) == Some(l) && info.id == l.id
      && FirstAnswer(w, qs + [q], i, l.id) && ((qs + [q])[i].ById? ==> |l.centerline| > 0)
      && info.gps == w.localToGps(info.local) && info.orientation == w.heading(l.centerline)
      && (|l.centerline| >= 2 ==>
            NearestOnLine(l.centerline, w.gpsToLocal(LooksFrom(w, (qs + [q])[i], l)), info.local))
  {
    var all := qs + [q];
    assert all[..|qs|] == qs;
    CacheOkAfter(w, qs);
    AskFacts(w, CacheAfter(w, qs), q);
    var id := Ask(w, CacheAfter(w, qs), q).answer.info.id;
    var gps;
    i, l, gps := FirstHitBuildsEntry(w, all, id);
    EntryPlaced(w, l, gps);
    SameLane(w, l, Naive(w, q).value);
    FromLookup(w, all[i], l, gps);
    forall j | 0 <= j < i && AnswerAt(w, all, j).Found?
      ensures AnswerAt(w, all, j).info.id != id
    {
      NotAnsweredBefore(w, all, i, id, j);
    }
  }

  lemma SameLane(w: World, a: Lane, b: Lane)
    requires WellFormed(w) && a in w.lanes && b in w.lanes && a.id == b.id
    ensures a == b
  {
    LaneOfMember(w, a);
    LaneOfMember(w, b);
  }

  lemma FromLookup(w: World, q: Lookup, l: Lane, gps: Gps)
    requires Naive(w, q) == Some(l) && SnappedGps(w, q) == Some(gps)
    ensures q.ById? ==> |l.centerline| > 0
    ensures gps == LooksFrom(w, q, l)
  {
  }
}
