/** The lane resolver as it runs: search loops over the map and a growing vector whose elements are
    handed out by pointer. */
module LaneletMaps {
  import opened Base
  import opened Projection
  import opened LaneSpec

  datatype FixedStart = FixedStart(name: string, gps: Gps, local: Local, orientation: Orientation)

  /** A raw pointer into the vector's buffer, a null pointer, or an exception on its way out. */
  datatype Handle = Null | At(buf: array<LaneInfo>, idx: nat) | Thrown

  /** The handle points into the live buffer, at an entry equal to the answer. */
  ghost predicate Denotes(h: Handle, buffer: array<LaneInfo>, cache: seq<LaneInfo>, answer: Answer) {
    match answer
    case Missing => h.Null?
    case Threw => h.Thrown?
    case Found(info) => h.At? && h.buf == buffer && h.idx < |cache| && cache[h.idx] == info
  }

  /** While the buffer stays and the cache only grows, an older pointer keeps its meaning. */
  lemma StillDenotes(h: Handle, buffer: array<LaneInfo>, cache: seq<LaneInfo>, later: seq<LaneInfo>, answer: Answer)
    requires Denotes(h, buffer, cache, answer) && cache <= later
    ensures Denotes(h, buffer, later, answer)
  {
  }

  ghost predicate AllDenote(handles: seq<Handle>, buffer: array<LaneInfo>, cache: seq<LaneInfo>, answers: seq<Answer>) {
    |handles| == |answers| && forall i :: 0 <= i < |handles| ==> Denotes(handles[i], buffer, cache, answers[i])
  }

  lemma AllDenoteSnoc(handles: seq<Handle>, h: Handle, buffer: array<LaneInfo>, cache: seq<LaneInfo>,
                      later: seq<LaneInfo>,
                      answers: seq<Answer>, answer: Answer)
    requires AllDenote(handles, buffer, cache, answers) && cache <= later && Denotes(h, buffer, later, answer)
    ensures AllDenote(handles + [h], buffer, later, answers + [answer])
  {
    forall i | 0 <= i < |handles|
      ensures Denotes(handles[i], buffer, later, answers[i])
    {
      StillDenotes(handles[i], buffer, cache, later, answers[i]);
    }
  }

  class LaneletMap {
    const w: World
    var buffer: array<LaneInfo>  // the vector's storage; its length is the capacity
    var size: nat
    var defaultStart: Option<FixedStart>

    ghost predicate Valid()
      reads this, buffer
    {
      && WellFormed(w)
      && size <= buffer.Length && |w.lanes| <= buffer.Length
      && CacheOk(w, buffer[..size])
    }

    ghost function Cache(): seq<LaneInfo>
      reads this, buffer
    {
      if size <= buffer.Length then buffer[..size] else []
    }

    ghost function StartPose(): Option<Pose>
      reads this
    {
      if defaultStart.Some? then Some(PoseAt(defaultStart.value.local, defaultStart.value.orientation)) else None
    }

    constructor (w: World)
      requires WellFormed(w)
      ensures Valid() && fresh(buffer) && this.w == w && Cache() == [] && defaultStart == None
    {
      this.w := w;
      buffer := new LaneInfo[|w.lanes|]
        (_ => LaneInfo(0, Gps(0.0, 0.0), Local(0.0, 0.0, 0.0), Orientation(0.0, 0.0, 0.0)));
      size := 0;
      defaultStart := None;
    }

    /** emplace_back: in place while there is capacity, else all entries move to a larger buffer. */
    method EmplaceBack(info: LaneInfo)
      requires size <= buffer.Length
      modifies this`buffer, this`size, buffer
      ensures size <= buffer.Length && Cache() == old(Cache()) + [info]
      ensures old(size) < old(buffer.Length) ==> buffer == old(buffer)
      ensures old(size) == old(buffer.Length) ==> fresh(buffer)
    {
      if size == buffer.Length {
        var old' := buffer;
        var grown := new LaneInfo[2 * size + 1](_ => info);
        for i := 0 to size
          invariant buffer == old' && size == old(size) && buffer[..] == old(buffer[..])
          invariant grown[..i] == buffer[..i]
        {
          grown[i] := buffer[i];
        }
        buffer := grown;
      }
      buffer[size] := info;
      size := size + 1;
    }

    /** The search loop shared by both nearest-lane lookups. */
    method SearchNearest(cands: seq<Lane>, target: Local) returns (bestId: Id)
      requires WellFormed(w)
      requires forall l :: l in cands ==> l in w.lanes
      ensures Best(w, cands, target).None? ==> bestId == INVALID_ID
      ensures Best(w, cands, target).Some? ==> bestId != INVALID_ID && LaneOf(w.lanes, bestId) == Best(w, cands, target)
    {
      bestId := INVALID_ID;
      var minDist := 0.0;
      var i := 0;
      while i < |cands|
        invariant 0 <= i <= |cands|
        invariant Best(w, cands[..i], target).None? <==> bestId == INVALID_ID
        invariant bestId != INVALID_ID ==>
          var best := Best(w, cands[..i], target).value;
          best in w.lanes && best.id == bestId && minDist == MidDist2(w, best, target)
      {
        var l := cands[i];
        assert cands[..i + 1][..i] == cands[..i];
        assert l in cands && l in w.lanes;
        if Drivable(l) && |l.centerline| > 0 {
          var dist := MidDist2(w, l, target);
          if bestId == INVALID_ID || dist < minDist {
            minDist, bestId := dist, l.id;
          }
        }
        i := i + 1;
      }
      assert cands[..i] == cands;
      if bestId != INVALID_ID {
        LaneOfMember(w, Best(w, cands, target).value);
      }
    }

    /** The linear cache scan. */
    method Scan(id: Id) returns (h: Handle)
      requires size <= buffer.Length
      ensures h.Null? || h.At?
      ensures h.Null? ==> Find(Cache(), id).None?
      ensures h.At? ==> h.buf == buffer && h.idx < size && Find(Cache(), id) == Some(buffer[h.idx])
    {
      var i := 0;
      while i < size
        invariant 0 <= i <= size
        invariant Find(Cache(), id) == Find(Cache()[i..], id)
      {
        assert Cache()[i..][0] == buffer[i] && Cache()[i..][1..] == Cache()[i + 1..];
        if buffer[i].id == id {
          return At(buffer, i);
        }
        i := i + 1;
      }
      return Null;
    }

    method BuildLaneInfo(l: Lane, gps: Gps) returns (info: LaneInfo)
      ensures info == MakeLaneInfo(w, l, gps)
    {
      var local := ProjectOntoCenterline(l.centerline, w.gpsToLocal(gps), w.garbage);
      info := LaneInfo(l.id, w.localToGps(local), local, w.heading(l.centerline));
    }

    /** Answer from the cache or build the entry. The reserved capacity is never exceeded, so the
        buffer stays where it is and older entries keep their index and value. */
    method Resolve(l: Lane, gps: Gps) returns (h: Handle)
      requires Valid() && l in w.lanes
      modifies this`buffer, this`size, buffer
      ensures Valid() && buffer == old(buffer) && old(Cache()) <= Cache()
      ensures var look := LaneSpec.Resolve(w, old(Cache()), l, gps);
        Cache() == look.cache && Denotes(h, buffer, Cache(), look.answer)
    {
      h := Scan(l.id);
      if h.Null? {
        EntryFits(w, Cache(), l, gps);
        var info := BuildLaneInfo(l, gps);
        EmplaceBack(info);
        h := At(buffer, size - 1);
      }
    }

    method FindNearestLane(gps: Gps) returns (h: Handle)
      requires Valid()
      modifies this`buffer, this`size, buffer
      ensures Valid() && buffer == old(buffer) && old(Cache()) <= Cache()
      ensures var look := LaneSpec.FindNearestLane(w, old(Cache()), gps);
        Cache() == look.cache && Denotes(h, buffer, Cache(), look.answer)
    {
      var bestId := SearchNearest(w.lanes, w.gpsToLocal(gps));
      if bestId == INVALID_ID {
        return Null;
      }
      h := Resolve(LaneOf(w.lanes, bestId).value, gps);
    }

    /** The lanes that can reach ref, found by searching every lane's reachable set. */
    method CollectReaching(ref: Id) returns (cands: seq<Lane>)
      ensures cands == Reaching(w, w.lanes, ref)
    {
      cands := [];
      var i := 0;
      while i < |w.lanes|
        invariant 0 <= i <= |w.lanes|
        invariant cands == Reaching(w, w.lanes[..i], ref)
      {
        var reach := w.reachable(w.lanes[i].id);
        var j := 0;
        while j < |reach| && reach[j].id != ref
          invariant 0 <= j <= |reach|
          invariant forall k :: 0 <= k < j ==> reach[k].id != ref
        {
          j := j + 1;
        }
        assert w.lanes[..i + 1][..i] == w.lanes[..i];
        if j < |reach| {
          assert CanReach(w, w.lanes[i].id, ref);
          cands := cands + [w.lanes[i]];
        }
        i := i + 1;
      }
      assert w.lanes[..i] == w.lanes;
    }

    method FindNearestConnectedLane(gps: Gps, ref: Id, forward: bool) returns (h: Handle)
      requires Valid()
      modifies this`buffer, this`size, buffer
      ensures Valid() && buffer == old(buffer) && old(Cache()) <= Cache()
      ensures var look := LaneSpec.FindNearestConnectedLane(w, old(Cache()), gps, ref, forward);
        Cache() == look.cache && Denotes(h, buffer, Cache(), look.answer)
    {
      if LaneOf(w.lanes, ref).None? {
        return Thrown;
      }
      var cands;
      if forward {
        cands := w.reachable(ref);
      } else {
        cands := CollectReaching(ref);
      }
      var bestId := SearchNearest(cands, w.gpsToLocal(gps));
      if bestId == INVALID_ID {
        return Null;
      }
      h := Resolve(LaneOf(w.lanes, bestId).value, gps);
    }

    method GetLaneById(id: Id) returns (h: Handle)
      requires Valid()
      modifies this`buffer, this`size, buffer
      ensures Valid() && buffer == old(buffer) && old(Cache()) <= Cache()
      ensures var look := LaneSpec.GetLaneById(w, old(Cache()), id);
        Cache() == look.cache && Denotes(h, buffer, Cache(), look.answer)
    {
      h := Scan(id);
      if h.At? {
        return;
      }
      var l := LaneOf(w.lanes, id);
      if l.None? {
        return Null;
      }
      if |l.value.centerline| == 0 {
        return Thrown;
      }
      h := Resolve(l.value, MidGps(w, l.value));
    }

    method Lookup(q: Lookup) returns (h: Handle)
      requires Valid()
      modifies this`buffer, this`size, buffer
      ensures Valid() && buffer == old(buffer) && old(Cache()) <= Cache()
      ensures Cache() == Ask(w, old(Cache()), q).cache && Denotes(h, buffer, Cache(), Ask(w, old(Cache()), q).answer)
    {
      match q {
        case Nearest(gps) => h := FindNearestLane(gps);
        case NearConnected(gps, ref, forward) => h := FindNearestConnectedLane(gps, ref, forward);
        case ById(id) => h := GetLaneById(id);
      }
    }

    /** Any sequence of lookups on a new map: at the end every pointer handed out on the way still
        denotes the entry it denoted when it was returned. */
    method RunLookups(qs: seq<Lookup>) returns (handles: seq<Handle>)
      requires Valid() && size == 0
      modifies this`buffer, this`size, buffer
      ensures Valid() && buffer == old(buffer) && Cache() == CacheAfter(w, qs)
      ensures AllDenote(handles, buffer, Cache(), AnswersAfter(w, qs))
    {
      handles := [];
      assert qs[..0] == [];
      for n := 0 to |qs|
        invariant Valid() && buffer == old(buffer) && Cache() == CacheAfter(w, qs[..n])
        invariant AllDenote(handles, buffer, Cache(), AnswersAfter(w, qs[..n]))
      {
        ghost var before := Cache();
        var h := Lookup(qs[n]);
        assert qs[..n + 1][..n] == qs[..n];
        ghost var answer := Ask(w, before, qs[n]).answer;
        AllDenoteSnoc(handles, h, buffer, before, Cache(), AnswersAfter(w, qs[..n]), answer);
        assert AnswersAfter(w, qs[..n + 1]) == AnswersAfter(w, qs[..n]) + [answer];
        handles := handles + [h];
      }
      assert qs[..|qs|] == qs;
    }

    method SetDefaultStart(name: string, gps: Gps)
      requires Valid()
      modifies this, buffer
      ensures Valid() && buffer == old(buffer) && old(Cache()) <= Cache()
      ensures var look := LaneSpec.FindNearestLane(w, old(Cache()), gps);
        && Cache() == look.cache
        && defaultStart == Some(if look.answer.Found?
             then FixedStart(name, gps, look.answer.info.local, look.answer.info.orientation)
             else FixedStart(name, gps, w.gpsToLocal(gps), Orientation(0.0, 0.0, 0.0)))
    {
      var lane := FindNearestLane(gps);
      var pos := FixedStart(name, gps, w.gpsToLocal(gps), Orientation(0.0, 0.0, 0.0));
      if lane.At? {
        pos := pos.(local := lane.buf[lane.idx].local, orientation := lane.buf[lane.idx].orientation);
      }
      defaultStart := Some(pos);
    }
  }
}
