/** What runs mean on a loaded map: where the published poses lie, and which lanes a quote is about. */
module OnMap {
  import opened Base
  import opened Projection
  import opened LaneSpec
  import opened Lookups
  import opened Resolvers
  import opened TripSpec
  import opened Runs
  import opened Steps
  import opened Outputs
  import opened History
  import opened Quotes

  /** The pose has the heading of the lane and lies on its centerline. */
  ghost predicate PoseOnLane(w: World, l: Lane, p: Pose) {
    && p.qz == w.heading(l.centerline).z && p.qw == w.heading(l.centerline).w
    && (|l.centerline| >= 2 ==> OnLine(l.centerline, Local(p.x, p.y, p.z)))
  }

  lemma LanePose(w: World, cache: seq<LaneInfo>, text: LaneText, p: Pose) returns (l: Lane)
    requires CacheOk(w, cache) && HasLane(Lanes(w), cache, text, p)
    ensures l in w.lanes && text == Text(l.id) && PoseOnLane(w, l, p)
  {
    CachedOnMap(w, cache, text.id);
    l := LaneOf(w.lanes, text.id).value;
  }

  lemma GoalPoseAt(e: Env, r: Run, i: nat, p: Pose) returns (text: LaneText, cache: seq<LaneInfo>)
    requires IsRun(e, r) && i < |r.evs|
    requires Published(r.states[i], r.evs[i].now, r.evs[i].ev, r.states[i+1]) == Some(Goal(p))
    ensures e.m.ok(cache) && HasLane(e.m, cache, text, p)
  {
    InvAt(e, r, i);
    if r.evs[i].ev.Tick? {
      text := if Querying(At(r, i)) then r.states[i].status.goalId else r.states[i].status.startId;
      cache := r.states[i].cache;
    } else {
      FactsAt(e, r, i);
      MoveGoal(e, r, i);
      text, cache := r.states[i+1].status.goalId, r.states[i+1].cache;
    }
  }

  /** Every goal that is published, to quote a leg or to drive it, lies on the centerline of a lane of the
      map and has its heading. */
  lemma GoalsOnLanes(w: World, t: Timings, r: Run, i: nat, p: Pose) returns (l: Lane)
    requires WellFormed(w) && IsRun(Env(Lanes(w), t), r) && i < |r.evs|
    requires Published(r.states[i], r.evs[i].now, r.evs[i].ev, r.states[i+1]) == Some(Goal(p))
    ensures l in w.lanes && PoseOnLane(w, l, p)
  {
    var e := Env(Lanes(w), t);
    var text, cache := GoalPoseAt(e, r, i, p);
    l := LanePose(w, cache, text, p);
  }

  /** While a leg is quoted, the recorded goal distance is that of the leg's goal from the request. */
  lemma GoalDistance(w: World, t: Timings, r: Run, i: nat)
    requires WellFormed(w) && IsRun(Env(Lanes(w), t), r) && i <= |r.evs| && Querying(At(r, i))
    ensures var s := r.states[i];
      var to := w.gpsToLocal(if s.query.leg.Pickup? then s.query.start else s.query.goal);
      && s.status.goalGps == (if s.query.leg.Pickup? then s.query.start else s.query.goal)
      && s.status.goalDistance ==
           w.root(Dist2(Local(s.status.goalPose.x, s.status.goalPose.y, s.status.goalPose.z), to))
  {
    InvAt(Env(Lanes(w), t), r, i);
  }

  /** So does every initial pose published to quote a leg. */
  lemma QueryPosesOnLanes(w: World, t: Timings, r: Run, i: nat, p: Pose) returns (l: Lane)
    requires WellFormed(w) && IsRun(Env(Lanes(w), t), r) && i < |r.evs|
    requires r.evs[i].ev.Tick? && Querying(At(r, i))
    requires Published(r.states[i], r.evs[i].now, r.evs[i].ev, r.states[i+1]) == Some(InitialPose(p))
    ensures l in w.lanes && r.states[i].status.startId == Text(l.id) && PoseOnLane(w, l, p)
  {
    InvAt(Env(Lanes(w), t), r, i);
    l := LanePose(w, r.states[i].cache, r.states[i].status.startId, p);
  }

  /** The configured start is the point of the nearest lane that is nearest to the configured coordinate,
      with the lane's heading; without any lane it is the bare coordinate. */
  lemma StartOnMap(w: World, t: Timings, r: Run) returns (l: Lane)
    requires WellFormed(w) && IsRun(Env(Lanes(w), t), r) && r.startGps.Some? && r.states[0].start.Some?
    ensures var (gps, p) := (r.startGps.value, r.states[0].start.value);
      if NoneEligible(w, Nearest(gps)) then
        p == Pose(w.gpsToLocal(gps).x, w.gpsToLocal(gps).y, w.gpsToLocal(gps).z, 0.0, 0.0)
      else
        && IsAbout(w, Nearest(gps), l) && PoseOnLane(w, l, p)
        && (|l.centerline| >= 2 ==> NearestOnLine(l.centerline, w.gpsToLocal(gps), Local(p.x, p.y, p.z)))
  {
    var i;
    l, i := LookupMeaning(w, [], Nearest(r.startGps.value));
    assert CacheAfter(w, []) == [];
  }

  /** The lanes of a successful quote: the vehicle's lane when it was asked for, the lane nearest to the
      requested start among those reachable from there, and the lane nearest to the requested goal among
      those reachable from that. */
  lemma QuoteOnMap(w: World, t: Timings, r: Run, i: nat) returns (q: nat, from: Lane, pickup: Lane, to: Lane)
    requires WellFormed(w) && IsRun(Env(Lanes(w), t), r) && i < |r.evs|
    requires At(r, i) == QUERY_READING_ETA && At(r, i + 1) == ROUTES_READY
    ensures q < i && At(r, q) == IDLE && r.evs[q].ev.QueryEta? && r.evs[q].ev.pose.Some?
    ensures IsAbout(w, Nearest(r.evs[q].ev.pose.value), from)
    ensures IsAbout(w, NearConnected(r.evs[q].ev.start, from.id, true), pickup)
    ensures IsAbout(w, NearConnected(r.evs[q].ev.goal, pickup.id, true), to)
    ensures var result := r.states[i+1].query.result;
      && result.pickupLeg.startLane == Text(from.id) && result.pickupLeg.goalLane == Text(pickup.id)
      && result.tripLeg.startLane == Text(pickup.id) && result.tripLeg.goalLane == Text(to.id)
  {
    var e := Env(Lanes(w), t);
    q := QuoteOfRequest(e, r, i);
    var ev := r.evs[q].ev;
    InvAt(e, r, q);
    AskFacts(w, r.states[q].cache, Nearest(ev.pose.value));
    from := Naive(w, Nearest(ev.pose.value)).value;
    NaiveMeaning(w, Nearest(ev.pose.value));
    pickup := GoalMeaning(w, ev.start, from.id);
    to := GoalMeaning(w, ev.goal, pickup.id);
  }

  lemma GoalMeaning(w: World, gps: Gps, ref: Id) returns (l: Lane)
    requires Lanes(w).goalFrom(gps, ref).Some?
    ensures Lanes(w).goalFrom(gps, ref) == Some(l.id) && IsAbout(w, NearConnected(gps, ref, true), l)
  {
    NaiveMeaning(w, NearConnected(gps, ref, true));
    l := Naive(w, NearConnected(gps, ref, true)).value;
  }
}
