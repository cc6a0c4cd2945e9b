/** The lane resolver as the controller sees it: lookups on a cache whose contents only it changes.
    The controller's theorems hold for every sound resolver; the loaded map gives one. */
module Resolvers {
  import opened Base
  import opened Projection
  import opened LaneSpec

  datatype Resolver = Resolver(
    nearest: (seq<LaneInfo>, Gps) -> Look,        // findNearestLane
    connected: (seq<LaneInfo>, Gps, Id) -> Look,  // findNearestConnectedLane, reachable from the id
    byId: (seq<LaneInfo>, Id) -> Look,            // getLaneById
    goalFrom: (Gps, Id) -> Option<Id>,            // the lane the connected search is about
    onMap: Id -> bool,
    entry: (seq<LaneInfo>, Id) -> Option<LaneInfo>,
    ok: seq<LaneInfo> -> bool,
    raw: Gps -> Local,
    snap: (Local, Gps) -> real)                   // distance from a resolved point to the request

  datatype Probe = AtGps(gps: Gps) | FromLane(gps: Gps, ref: Id) | OfId(id: Id)

  ghost function Probed(m: Resolver, cache: seq<LaneInfo>, q: Probe): Look {
    match q
    case AtGps(gps) => m.nearest(cache, gps)
    case FromLane(gps, ref) => m.connected(cache, gps, ref)
    case OfId(id) => m.byId(cache, id)
  }

  /** Answers are cached entries of map lanes, entries are never changed, the connected search
      answers its goal, and a cached id is answered by its entry. */
  ghost predicate SoundAt(m: Resolver, cache: seq<LaneInfo>, q: Probe) {
    m.ok(cache) ==>
      var look := Probed(m, cache, q);
      && m.ok(look.cache)
      && (forall id :: m.entry(cache, id).Some? ==> m.entry(look.cache, id) == m.entry(cache, id))
      && (look.answer.Found? ==>
            var info := look.answer.info; m.entry(look.cache, info.id) == Some(info) && m.onMap(info.id))
      && (q.AtGps? ==> !look.answer.Threw?)
      && (q.FromLane? ==>
            && (look.answer.Threw? <==> !m.onMap(q.ref))
            && (look.answer.Missing? ==> m.goalFrom(q.gps, q.ref).None?)
            && (look.answer.Found? ==> m.goalFrom(q.gps, q.ref) == Some(look.answer.info.id)))
      && (q.OfId? && m.entry(cache, q.id).Some? ==>
            look == Look(cache, Found(m.entry(cache, q.id).value)) && m.entry(cache, q.id).value.id == q.id)
  }

  ghost predicate Sound(m: Resolver) {
    m.ok([]) && forall cache, q :: SoundAt(m, cache, q)
  }

  ghost function Lanes(w: World): Resolver {
    Resolver(
      (cache, gps) => FindNearestLane(w, cache, gps),
      (cache, gps, ref) => FindNearestConnectedLane(w, cache, gps, ref, true),
      (cache, id) => GetLaneById(w, cache, id),
      (gps, ref) => GoalLane(w, gps, ref),
      id => LaneOf(w.lanes, id).Some?,
      (cache, id) => Find(cache, id),
      cache => CacheOk(w, cache),
      w.gpsToLocal,
      (resolved, to) => SnapDistance(w, resolved, to))
  }

  function GoalLane(w: World, gps: Gps, ref: Id): Option<Id> {
    var l := NearestConnected(w, gps, ref, true);
    if l.Some? then Some(l.value.id) else None
  }

  function SnapDistance(w: World, resolved: Local, to: Gps): real {
    w.root(Dist2(resolved, w.gpsToLocal(to)))
  }

  function AsLookup(q: Probe): Lookup {
    match q
    case AtGps(gps) => Nearest(gps)
    case FromLane(gps, ref) => NearConnected(gps, ref, true)
    case OfId(id) => ById(id)
  }

  lemma LookIsAsk(w: World, cache: seq<LaneInfo>, q: Probe)
    ensures Probed(Lanes(w), cache, q) == Ask(w, cache, AsLookup(q))
  {
  }

  lemma LanesSoundAt(w: World, cache: seq<LaneInfo>, q: Probe)
    requires WellFormed(w)
    ensures SoundAt(Lanes(w), cache, q)
  {
    if CacheOk(w, cache) {
      LookIsAsk(w, cache, q);
      AskFacts(w, cache, AsLookup(q));
      var look := Ask(w, cache, AsLookup(q));
      if look.answer.Found? {
        CachedOnMap(w, look.cache, look.answer.info.id);
      }
    }
  }

  /** Every loaded map is a sound resolver. */
  lemma LanesSound(w: World)
    requires WellFormed(w)
    ensures Sound(Lanes(w))
  {
    forall cache, q
      ensures SoundAt(Lanes(w), cache, q)
    {
      LanesSoundAt(w, cache, q);
    }
  }

  /** The goal of a leg is a usable lane within reach of its start, nearest to the request. */
  lemma GoalIsReachable(w: World, gps: Gps, ref: Id) returns (k: int)
    requires Lanes(w).goalFrom(gps, ref).Some?
    ensures FirstNearestAt(w, w.reachable(ref), w.gpsToLocal(gps), k)
    ensures w.reachable(ref)[k].id == Lanes(w).goalFrom(gps, ref).value
  {
    k := BestIsFirstNearest(w, w.reachable(ref), w.gpsToLocal(gps));
  }
}
