/** What was quoted is what is driven, and what a quote is made of. */
module Quotes {
  import opened Base
  import opened LaneSpec
  import opened Resolvers
  import opened TripSpec
  import opened Runs
  import opened Steps
  import opened Outputs
  import opened History

  // ---- cached lanes keep their pose ----

  ghost predicate Keeps(m: Resolver, c: seq<LaneInfo>, d: seq<LaneInfo>) {
    forall id :: m.entry(c, id).Some? ==> m.entry(d, id) == m.entry(c, id)
  }

  lemma LegFromKeeps(e: Env, s: Ctrl, now: int, a: LaneInfo, to: Gps)
    requires Sound(e.m) && e.m.ok(s.cache)
    ensures Keeps(e.m, s.cache, LegFrom(e, s, now, a, to).cache)
  {
    LookupFacts(e.m, s.cache, FromLane(to, a.id));
    var m := e.m.connected(s.cache, to, a.id);
    LookupFacts(e.m, m.cache, AtGps(to));
  }

  lemma StartLegKeeps(e: Env, s: Ctrl, now: int, from: Gps, to: Gps)
    requires Sound(e.m) && e.m.ok(s.cache)
    ensures Keeps(e.m, s.cache, StartQueryLeg(e, s, now, from, to).cache)
  {
    LookupFacts(e.m, s.cache, AtGps(from));
    if s.status.goalId.Text? {
      LookupFacts(e.m, s.cache, OfId(s.status.goalId.id));
    }
    var l := StartLane(e, s, from);
    if l.answer.Found? {
      LegFromKeeps(e, s.(cache := l.cache), now, l.answer.info, to);
    }
  }

  lemma FinishKeeps(e: Env, s: Ctrl, now: int)
    requires Sound(e.m) && e.m.ok(s.cache)
    ensures Keeps(e.m, s.cache, FinishQueryLeg(e, s, now).cache)
  {
    if s.query.leg.Pickup? && s.status.goalId.Text? {
      var s1 := ClearRoute(s.(query := s.query.(result := s.query.result.(pickupLeg := LegResult(s)), leg := Trip),
                              bank := s.bank.(pickup := Some(Held(s, s.query.start, s.status.goalId.id)))));
      StartLegKeeps(e, s1, now, s.query.start, s.query.goal);
    }
  }

  /** Only the end of a leg looks lanes up. */
  lemma TickKeepsCache(e: Env, s: Ctrl, now: int, ready: bool)
    requires s.status.state != QUERY_READING_ETA
    ensures DoTick(e, s, now, ready).cache == s.cache
  {
  }

  lemma ReadEtaKeeps(e: Env, s: Ctrl, now: int)
    requires Sound(e.m) && e.m.ok(s.cache)
    ensures Keeps(e.m, s.cache, TickReadEta(e, s, now).cache)
  {
    FinishKeeps(e, if s.query.etaReceived then s else WithoutEta(s), now);
  }

  lemma TickKeeps(e: Env, s: Ctrl, now: int, ready: bool)
    requires Sound(e.m) && e.m.ok(s.cache)
    ensures Keeps(e.m, s.cache, DoTick(e, s, now, ready).cache)
  {
    if s.status.state == QUERY_READING_ETA {
      ReadEtaKeeps(e, s, now);
    } else {
      TickKeepsCache(e, s, now, ready);
    }
  }

  lemma CommandKeeps(e: Env, s: Ctrl, now: int)
    requires Sound(e.m) && e.m.ok(s.cache)
    ensures Keeps(e.m, s.cache, DoStartTrip(e, s, now).0.cache)
    ensures Keeps(e.m, s.cache, DoMove(e, s, now).0.cache)
  {
    if s.bank.pickup.Some? {
      LookupFacts(e.m, s.cache, OfId(s.bank.pickup.value.goalLane));
    }
    if s.bank.trip.Some? && s.status.startId.Text? {
      LookupFacts(e.m, s.cache, FromLane(s.bank.trip.value.goalGps, s.status.startId.id));
    }
  }

  lemma QueryEtaKeeps(e: Env, s: Ctrl, now: int, ev: Event)
    requires Sound(e.m) && e.m.ok(s.cache) && ev.QueryEta?
    ensures Keeps(e.m, s.cache, Step(e, s, now, ev).cache)
  {
    if s.status.state == IDLE && ev.pose.Some? {
      var q := Asked(s.query, ev.start, ev.goal, ev.cb);
      StartLegKeeps(e, s.(query := q, bank := EMPTY_BANK), now, ev.pose.value, ev.start);
    }
  }

  lemma StepKeeps(e: Env, s: Ctrl, now: int, ev: Event)
    requires Sound(e.m) && e.m.ok(s.cache)
    ensures Keeps(e.m, s.cache, Step(e, s, now, ev).cache)
  {
    match ev
    case Tick(pose, ready) => TickKeeps(e, SetCurrentGps(s, pose), now, ready);
    case QueryEta(_, _, _, _) => QueryEtaKeeps(e, s, now, ev);
    case StartTrip => CommandKeeps(e, s, now);
    case Move => CommandKeeps(e, s, now);
    case MoveCommand => CommandKeeps(e, s, now);
    case _ =>
  }

  lemma KeepsAt(e: Env, r: Run, i: nat)
    requires IsRun(e, r) && i < |r.evs|
    ensures Keeps(e.m, r.states[i].cache, r.states[i+1].cache)
  {
    InvAt(e, r, i);
    assert StepAt(e, r, i);
    StepKeeps(e, r.states[i], r.evs[i].now, r.evs[i].ev);
  }

  lemma {:induction false} CacheKept(e: Env, r: Run, k: nat, i: nat)
    requires IsRun(e, r) && k <= i <= |r.evs|
    ensures Keeps(e.m, r.states[k].cache, r.states[i].cache)
  {
    if k < i {
      CacheKept(e, r, k, i - 1);
      KeepsAt(e, r, i - 1);
    }
  }

  // ---- the quoted goals through a trip ----

  predicate Busy(st: TripState) {
    st != IDLE
  }

  predicate PickupQuery(s: Ctrl) {
    Querying(s.status.state) && s.query.leg.Pickup?
  }

  predicate TripQuery(s: Ctrl) {
    Querying(s.status.state) && s.query.leg.Trip?
  }

  predicate Holding(s: Ctrl) {
    TripQuery(s) || Banked(s.status.state)
  }

  /** The pickup lane of the current trip is x. */
  ghost predicate PickupLaneIs(s: Ctrl, x: Id) {
    if PickupQuery(s) then s.status.goalId == Text(x)
    else Holding(s) && s.bank.pickup.Some? && s.bank.pickup.value.goalLane == x
  }

  /** The destination lane of the current trip is y. */
  ghost predicate TripLaneIs(m: Resolver, s: Ctrl, y: Id) {
    if TripQuery(s) then s.status.goalId == Text(y)
    else
      && Banked(s.status.state) && s.bank.pickup.Some? && s.bank.trip.Some?
      && m.goalFrom(s.bank.trip.value.goalGps, s.bank.pickup.value.goalLane) == Some(y)
  }

  lemma LanesStepAt(e: Env, r: Run, i: nat, x: Id, y: Id)
    requires IsRun(e, r) && i < |r.evs| && Busy(At(r, i)) && Busy(At(r, i + 1))
    ensures PickupLaneIs(r.states[i], x) ==> PickupLaneIs(r.states[i+1], x)
    ensures TripLaneIs(e.m, r.states[i], y) ==> TripLaneIs(e.m, r.states[i+1], y)
  {
    FactsAt(e, r, i);
  }

  lemma {:induction false} LanesKept(e: Env, r: Run, k: nat, i: nat, x: Id, y: Id)
    requires IsRun(e, r) && k <= i <= |r.evs| && Busy(At(r, k)) && Throughout(r, Busy, k, i)
    ensures PickupLaneIs(r.states[k], x) ==> PickupLaneIs(r.states[i], x)
    ensures TripLaneIs(e.m, r.states[k], y) ==> TripLaneIs(e.m, r.states[i], y)
  {
    if k < i {
      LanesKept(e, r, k, i - 1, x, y);
      LanesStepAt(e, r, i - 1, x, y);
    }
  }

  /** What the pickup leg of a query is quoted for is where the vehicle is then sent: every goal
      published while quoting the pickup leg has the lane and the pose of the goal published to drive
      to the pickup. */
  lemma PickupDrivenIsQuoted(e: Env, r: Run, k: nat, i: nat)
    requires IsRun(e, r) && k < i < |r.evs| && Throughout(r, Busy, k, i)
    requires PickupQuery(r.states[k]) && Committed(At(r, i))
    ensures r.states[i].status.startId == r.states[k].status.goalId
    ensures r.states[i].status.startPose == r.states[k].status.goalPose
  {
    InvAt(e, r, k);
    InvAt(e, r, i);
    var x := r.states[k].status.goalId.id;
    LanesKept(e, r, k, i, x, 0);
    CacheKept(e, r, k, i);
  }

  lemma MoveGoal(e: Env, r: Run, i: nat)
    requires IsRun(e, r) && i < |r.evs| && At(r, i) == WAITING_FOR_MOVE && At(r, i + 1) == ENGAGING
    ensures var s, s' := r.states[i], r.states[i+1];
      && s'.status.goalId.Text? && TripLaneIs(e.m, s, s'.status.goalId.id)
      && HasLane(e.m, s'.cache, s'.status.goalId, s'.status.goalPose)
      && s'.status.goalGps == s.bank.trip.value.goalGps && s'.status.goalDistance == s.bank.trip.value.distance
  {
    FactsAt(e, r, i);
    var s, ev, now := r.states[i], r.evs[i].ev, r.evs[i].now;
    assert StepAt(e, r, i);
    assert ev.Move? || ev.MoveCommand?;
    LookupFacts(e.m, s.cache, FromLane(s.bank.trip.value.goalGps, s.status.startId.id));
  }

  /** The goal that move publishes has the lane and the pose of every goal published while the trip
      leg was quoted. */
  lemma TripDrivenIsQuoted(e: Env, r: Run, k: nat, i: nat)
    requires IsRun(e, r) && k < i < |r.evs| && Throughout(r, Busy, k, i)
    requires TripQuery(r.states[k]) && At(r, i) == WAITING_FOR_MOVE && At(r, i + 1) == ENGAGING
    ensures r.states[i+1].status.goalId == r.states[k].status.goalId
    ensures r.states[i+1].status.goalPose == r.states[k].status.goalPose
  {
    InvAt(e, r, k);
    var y := r.states[k].status.goalId.id;
    LanesKept(e, r, k, i, 0, y);
    MoveGoal(e, r, i);
    CacheKept(e, r, k, i + 1);
  }

  // ---- every trip was quoted ----

  predicate PickupRoute(s: Ctrl) {
    PickupQuery(s) && (s.status.state == QUERY_WAITING_ROUTE || s.status.state == QUERY_READING_ETA)
  }

  predicate TripRoute(s: Ctrl) {
    TripQuery(s) && (s.status.state == QUERY_WAITING_ROUTE || s.status.state == QUERY_READING_ETA)
  }

  /** The leg and the phases of one step. */
  lemma LegAt(e: Env, r: Run, i: nat)
    requires IsRun(e, r) && i < |r.evs|
    ensures var s, s' := r.states[i], r.states[i+1];
      && (PickupRoute(s') && !PickupRoute(s) ==>
            PickupQuery(s) && s.status.state == QUERY_PUBLISHING_GOAL && r.evs[i].ev.Tick?)
      && (TripRoute(s') && !TripRoute(s) ==>
            TripQuery(s) && s.status.state == QUERY_PUBLISHING_GOAL && r.evs[i].ev.Tick?)
      && (TripQuery(s') && !TripQuery(s) ==>
            PickupRoute(s) && s.status.state == QUERY_READING_ETA && PickupQuoted(s, s')
            && EtaSettled(e.t, s, r.evs[i].now))
      && (Banked(s'.status.state) && !Banked(s.status.state) ==>
            TripRoute(s) && s.status.state == QUERY_READING_ETA && s'.status.state == ROUTES_READY && TripQuoted(s, s'))
  {
    FactsAt(e, r, i);
  }

  /** Between its steps a trip leg's query keeps the request and the pickup leg's result. */
  lemma TripQueryAt(e: Env, r: Run, i: nat)
    requires IsRun(e, r) && i < |r.evs| && TripQuery(r.states[i]) && TripQuery(r.states[i+1])
    ensures SameQuery(r.states[i], r.states[i+1])
  {
    FactsAt(e, r, i);
  }

  predicate SameQuery(s: Ctrl, s': Ctrl) {
    s'.query.result == s.query.result && s'.query.start == s.query.start && s'.query.goal == s.query.goal
  }

  /** The steps that quoted the trip the run is in: k1 and k2 published the goals of the two legs,
      j and z ended their quotes. */
  datatype Quoting = Quoting(pickupGoal: nat, pickupEnd: nat, tripGoal: nat, tripEnd: nat)

  ghost predicate QuotedBy(r: Run, q: Quoting)
    requires |r.states| == |r.evs| + 1
  {
    && q.pickupGoal < q.pickupEnd < q.tripGoal < q.tripEnd < |r.evs|
    && At(r, q.pickupGoal) == QUERY_PUBLISHING_GOAL && PickupQuery(r.states[q.pickupGoal])
    && r.evs[q.pickupGoal].ev.Tick?
    && At(r, q.pickupEnd) == QUERY_READING_ETA && Always(r, PickupRoute, q.pickupGoal, q.pickupEnd)
    && PickupQuoted(r.states[q.pickupEnd], r.states[q.pickupEnd + 1])
    && At(r, q.tripGoal) == QUERY_PUBLISHING_GOAL && TripQuery(r.states[q.tripGoal]) && r.evs[q.tripGoal].ev.Tick?
    && At(r, q.tripEnd) == QUERY_READING_ETA && Always(r, TripRoute, q.tripGoal, q.tripEnd)
    && Always(r, TripQuery, q.pickupEnd, q.tripEnd)
    && At(r, q.tripEnd + 1) == ROUTES_READY && TripQuoted(r.states[q.tripEnd], r.states[q.tripEnd + 1])
  }

  /** The trip leg of a query was preceded by its pickup leg. */
  lemma PickupLegQuoted(e: Env, r: Run, z: nat) returns (k: nat, j: nat)
    requires IsRun(e, r) && z <= |r.evs| && TripQuery(r.states[z])
    ensures k < j < z && Always(r, TripQuery, j, z) && Always(r, PickupRoute, k, j)
    ensures At(r, k) == QUERY_PUBLISHING_GOAL && PickupQuery(r.states[k]) && r.evs[k].ev.Tick?
    ensures At(r, j) == QUERY_READING_ETA && PickupQuoted(r.states[j], r.states[j+1])
    ensures EtaSettled(e.t, r.states[j], r.evs[j].now)
  {
    StartPhase(e, r);
    j := EntryOf(r, TripQuery, z);
    LegAt(e, r, j);
    k := EntryOf(r, PickupRoute, j);
    LegAt(e, r, k);
  }

  /** A filled bank was preceded by a quoted trip leg. */
  lemma TripLegQuoted(e: Env, r: Run, i: nat) returns (l: nat, z: nat)
    requires IsRun(e, r) && i <= |r.evs| && Banked(At(r, i))
    ensures l < z < i && Throughout(r, Banked, z, i) && Always(r, TripRoute, l, z)
    ensures At(r, l) == QUERY_PUBLISHING_GOAL && TripQuery(r.states[l]) && r.evs[l].ev.Tick?
    ensures At(r, z) == QUERY_READING_ETA && At(r, z + 1) == ROUTES_READY && TripQuoted(r.states[z], r.states[z+1])
  {
    StartPhase(e, r);
    z := Entry(r, Banked, i);
    assert Banked(At(r, z + 1));
    LegAt(e, r, z);
    l := EntryOf(r, TripRoute, z);
    LegAt(e, r, l);
  }

  /** Whatever trip the run is in was quoted in full, without a reset since. */
  lemma EveryTripWasQuoted(e: Env, r: Run, i: nat) returns (q: Quoting)
    requires IsRun(e, r) && i <= |r.evs| && Banked(At(r, i))
    ensures QuotedBy(r, q) && q.tripEnd < i && Throughout(r, Busy, q.pickupGoal, i)
  {
    var l, z := TripLegQuoted(e, r, i);
    var k, j := PickupLegQuoted(e, r, l);
    q := Quoting(k, j, l, z);
    forall t | j < t <= z
      ensures TripQuery(r.states[t])
    {
      assert t <= l || TripRoute(r.states[t]);
    }
    QuotingIsBusy(r, q, i);
  }

  /** Step k of the run sends the goal p. */
  ghost predicate SendsGoal(r: Run, k: nat, p: Pose)
    requires |r.states| == |r.evs| + 1 && k < |r.evs|
  {
    Published(r.states[k], r.evs[k].now, r.evs[k].ev, r.states[k+1]) == Some(Goal(p))
  }

  lemma GoalSent(r: Run, k: nat)
    requires |r.states| == |r.evs| + 1 && k < |r.evs| && At(r, k) == QUERY_PUBLISHING_GOAL && r.evs[k].ev.Tick?
    ensures SendsGoal(r, k, r.states[k].status.goalPose)
  {
  }

  lemma DriveAt(e: Env, r: Run, i: nat)
    requires IsRun(e, r) && i < |r.evs| && At(r, i + 1) == ENGAGING && At(r, i) != ENGAGING
    ensures At(r, i) == WAITING_LOCALISATION ==> SendsGoal(r, i, r.states[i].status.startPose)
    ensures At(r, i) == WAITING_FOR_MOVE ==> SendsGoal(r, i, r.states[i+1].status.goalPose)
  {
    FactsAt(e, r, i);
  }

  /** The goal sent to drive to the pickup was sent before, to quote the pickup leg of this trip. */
  lemma DriveToPickupWasQuoted(e: Env, r: Run, i: nat) returns (q: Quoting)
    requires IsRun(e, r) && i < |r.evs| && At(r, i) == WAITING_LOCALISATION && At(r, i + 1) == ENGAGING
    ensures QuotedBy(r, q) && q.tripEnd < i && Throughout(r, Busy, q.pickupGoal, i)
    ensures SendsGoal(r, q.pickupGoal, r.states[i].status.startPose) && SendsGoal(r, i, r.states[i].status.startPose)
    ensures r.states[q.pickupGoal].status.goalId == r.states[i].status.startId
  {
    q := EveryTripWasQuoted(e, r, i);
    PickupDrivenIsQuoted(e, r, q.pickupGoal, i);
    GoalSent(r, q.pickupGoal);
    DriveAt(e, r, i);
  }

  /** The goal sent by move was sent before, to quote the trip leg of this trip. */
  lemma DriveOfTripWasQuoted(e: Env, r: Run, i: nat) returns (q: Quoting)
    requires IsRun(e, r) && i < |r.evs| && At(r, i) == WAITING_FOR_MOVE && At(r, i + 1) == ENGAGING
    ensures QuotedBy(r, q) && q.tripEnd < i && Throughout(r, Busy, q.pickupGoal, i)
    ensures SendsGoal(r, q.tripGoal, r.states[i+1].status.goalPose) && SendsGoal(r, i, r.states[i+1].status.goalPose)
    ensures r.states[q.tripGoal].status.goalId == r.states[i+1].status.goalId
  {
    q := EveryTripWasQuoted(e, r, i);
    TripDrivenIsQuoted(e, r, q.tripGoal, i);
    GoalSent(r, q.tripGoal);
    DriveAt(e, r, i);
  }

  lemma QuotingIsBusy(r: Run, q: Quoting, i: nat)
    requires |r.states| == |r.evs| + 1 && i <= |r.evs| && QuotedBy(r, q) && q.tripEnd < i
    requires Throughout(r, Banked, q.tripEnd, i)
    ensures Throughout(r, Busy, q.pickupGoal, i)
  {
    forall k | q.pickupGoal < k <= i
      ensures Busy(At(r, k))
    {
      assert k <= q.pickupEnd ==> PickupRoute(r.states[k]);
      assert q.pickupEnd < k <= q.tripEnd ==> TripQuery(r.states[k]);
      assert q.tripEnd < k ==> Banked(At(r, k));
    }
  }

  // ---- what a quote is made of ----

  predicate Reading(st: TripState) {
    st == QUERY_READING_ETA
  }

  ghost predicate IsEta(r: Run, k: nat)
    requires k < |r.evs|
  {
    r.evs[k].ev.EtaMessage?
  }

  /** Message k is the last ETA of the stay that began with step j and is ended by step i. */
  ghost predicate LastEta(r: Run, k: nat, j: nat, i: nat)
    requires i <= |r.evs|
  {
    j < k < i && IsEta(r, k) && forall l :: k < l < i ==> !IsEta(r, l)
  }

  predicate QuotesFigures(s: Ctrl, distance: real, seconds: real) {
    QuotedLeg(s).distance == distance && QuotedLeg(s).seconds == seconds
  }

  /** A leg is quoted with the last ETA injected while it was waiting for one, or with zero if none came. */
  lemma {:induction false} EtaProvenance(e: Env, r: Run, j: nat, i: nat) returns (k: nat)
    requires IsRun(e, r) && j < i <= |r.evs| && At(r, j) == QUERY_WAITING_ROUTE && Throughout(r, Reading, j, i)
    ensures r.states[i].query.etaReceived <==> exists l :: j < l < i && IsEta(r, l)
    ensures r.states[i].query.etaReceived ==>
      LastEta(r, k, j, i) && QuotesFigures(r.states[i], r.evs[k].ev.distance, r.evs[k].ev.seconds)
    ensures !r.states[i].query.etaReceived ==> QuotesFigures(r.states[i], 0.0, 0.0)
  {
    k := 0;
    EtaAt(e, r, i - 1);
    assert Reading(At(r, i));
    if i > j + 1 {
      assert Reading(At(r, i - 1));
      k := EtaProvenance(e, r, j, i - 1);
      if IsEta(r, i - 1) {
        k := i - 1;
      }
    }
  }

  lemma EtaAt(e: Env, r: Run, i: nat)
    requires IsRun(e, r) && i < |r.evs|
    ensures var s, s' := r.states[i], r.states[i+1];
      && (s.status.state == QUERY_WAITING_ROUTE && s'.status.state == QUERY_READING_ETA ==>
            !s'.query.etaReceived && !IsEta(r, i))
      && (s.status.state == QUERY_READING_ETA && s'.status.state == QUERY_READING_ETA ==>
            if IsEta(r, i) then
              && s'.query.etaReceived
              && s'.query.etaDistance == r.evs[i].ev.distance && s'.query.etaSeconds == r.evs[i].ev.seconds
            else
              && s'.query.etaReceived == s.query.etaReceived
              && s'.query.etaDistance == s.query.etaDistance && s'.query.etaSeconds == s.query.etaSeconds)
  {
    FactsAt(e, r, i);
  }

  lemma {:induction false} TripQueryKept(e: Env, r: Run, j: nat, i: nat)
    requires IsRun(e, r) && j <= i <= |r.evs| && TripQuery(r.states[j]) && Always(r, TripQuery, j, i)
    ensures SameQuery(r.states[j], r.states[i])
  {
    if j < i {
      TripQueryKept(e, r, j, i - 1);
      TripQueryAt(e, r, i - 1);
    }
  }

  /** The figures are the last ETA that came in the stay from step j to step i, or zero if none came. */
  ghost predicate LastFigures(r: Run, j: nat, i: nat, distance: real, seconds: real)
    requires i <= |r.evs|
  {
    || (exists k :: j < k < i && LastEta(r, k, j, i)
          && distance == r.evs[k].ev.distance && seconds == r.evs[k].ev.seconds)
    || ((forall k :: j < k < i ==> !IsEta(r, k)) && distance == 0.0 && seconds == 0.0)
  }

  ghost predicate FiguresOf(r: Run, leg: LegEta, j: nat, i: nat)
    requires i <= |r.evs|
  {
    LastFigures(r, j, i, leg.distance, leg.seconds)
  }

  /** A stay that waited for an ETA, and what it quotes. */
  lemma ReadingEntry(e: Env, r: Run, i: nat) returns (j: nat)
    requires IsRun(e, r) && i <= |r.evs| && At(r, i) == QUERY_READING_ETA
    ensures j < i && At(r, j) == QUERY_WAITING_ROUTE && Throughout(r, Reading, j, i)
    ensures FiguresOf(r, QuotedLeg(r.states[i]), j, i)
  {
    StartPhase(e, r);
    j := Entry(r, Reading, i);
    assert Reading(At(r, j + 1));
    PhaseAt(e, r, j);
    var k := EtaProvenance(e, r, j, i);
  }

  /** A successful result, whose pickup leg ended with step j. Each leg's figures are the last ETA that
      came during that leg's own wait for one, from a to j and from b to i, or zero; the trip leg starts
      on the lane where the pickup leg ends, and each leg's goal is the best lane within reach of its
      start. */
  lemma SuccessfulQuote(e: Env, r: Run, i: nat) returns (k: nat, j: nat, a: nat, b: nat)
    requires IsRun(e, r) && i < |r.evs| && At(r, i) == QUERY_READING_ETA && At(r, i + 1) == ROUTES_READY
    ensures k < j < i && Always(r, PickupRoute, k, j) && Always(r, TripQuery, j, i) && At(r, j) == QUERY_READING_ETA
    ensures a < j < b < i && Throughout(r, Reading, a, j) && Throughout(r, Reading, b, i)
    ensures At(r, a) == QUERY_WAITING_ROUTE && At(r, b) == QUERY_WAITING_ROUTE
    ensures var result := r.states[i+1].query.result;
      && FiguresOf(r, result.pickupLeg, a, j) && FiguresOf(r, result.tripLeg, b, i)
    ensures QuoteComposed(e.m, r, j, i)
  {
    LegAt(e, r, i);
    k, j := PickupLegQuoted(e, r, i);
    QuoteParts(e, r, j, i);
    a := ReadingEntry(e, r, j);
    b := ReadingEntry(e, r, i);
    LaterStay(e, r, j, b, i);
  }

  /** How the result of a successful query is put together from the states at the ends of its legs. */
  ghost predicate QuoteComposed(m: Resolver, r: Run, j: nat, i: nat)
    requires |r.states| == |r.evs| + 1 && j < i < |r.evs|
  {
    var result := r.states[i+1].query.result;
    && result.success
    && result.pickupLeg == QuotedLeg(r.states[j]) && result.tripLeg == QuotedLeg(r.states[i])
    && result.pickupLeg.goalLane == result.tripLeg.startLane
    && ChainedLegs(m, r.states[i].query.start, r.states[i].query.goal, result)
    && (r.states[i].query.cb.Some? ==>
          Fired(r.states[i], r.evs[i].ev, r.states[i+1]) == Some(Fire(r.states[i].query.cb.value, result)))
  }

  lemma QuoteParts(e: Env, r: Run, j: nat, i: nat)
    requires IsRun(e, r) && j < i < |r.evs| && At(r, i) == QUERY_READING_ETA && At(r, i + 1) == ROUTES_READY
    requires Always(r, TripQuery, j, i) && At(r, j) == QUERY_READING_ETA && PickupQuery(r.states[j])
    requires PickupQuoted(r.states[j], r.states[j+1])
    ensures QuoteComposed(e.m, r, j, i)
  {
    FactsAt(e, r, i);
    TripQueryKept(e, r, j + 1, i);
    InvAt(e, r, j);
  }

  /** The trip leg's wait began after the pickup leg had ended. */
  lemma LaterStay(e: Env, r: Run, j: nat, b: nat, i: nat)
    requires IsRun(e, r) && j < i <= |r.evs| && b < i && Throughout(r, Reading, b, i) && At(r, b) == QUERY_WAITING_ROUTE
    requires At(r, j) == QUERY_READING_ETA && PickupQuery(r.states[j]) && TripQuery(r.states[j+1])
    ensures j < b
  {
    PickupLegLeaves(e, r, j);
  }

  lemma PickupLegLeaves(e: Env, r: Run, j: nat)
    requires IsRun(e, r) && j < |r.evs| && At(r, j) == QUERY_READING_ETA
    requires PickupQuery(r.states[j]) && TripQuery(r.states[j+1])
    ensures At(r, j + 1) != QUERY_READING_ETA
  {
    FactsAt(e, r, j);
  }

  // ---- what a quote is asked for ----

  lemma PickupQueryAt(e: Env, r: Run, i: nat)
    requires IsRun(e, r) && i < |r.evs| && PickupQuery(r.states[i+1])
    ensures PickupQuery(r.states[i]) ==> SameTrip(r.states[i], r.states[i+1])
    ensures !PickupQuery(r.states[i]) ==>
      && At(r, i) == IDLE && At(r, i + 1) == QUERY_PUBLISHING_INITIAL_POSE
      && r.evs[i].ev.QueryEta? && r.evs[i].ev.pose.Some?
      && r.states[i+1].query.start == r.evs[i].ev.start && r.states[i+1].query.goal == r.evs[i].ev.goal
  {
    FactsAt(e, r, i);
  }

  lemma {:induction false} PickupQueryKept(e: Env, r: Run, j: nat, i: nat)
    requires IsRun(e, r) && j < i <= |r.evs| && Always(r, PickupQuery, j, i)
    ensures var s, s' := r.states[j+1], r.states[i];
      s'.status.startId == s.status.startId && s'.query.start == s.query.start && s'.query.goal == s.query.goal
  {
    if i > j + 1 {
      PickupQueryKept(e, r, j, i - 1);
      PickupQueryAt(e, r, i - 1);
    }
  }

  /** The step that accepted a query: its leg starts on the lane that is nearest to the vehicle then. */
  lemma QueryAccepted(e: Env, r: Run, q: nat)
    requires IsRun(e, r) && q < |r.evs| && At(r, q) == IDLE && At(r, q + 1) == QUERY_PUBLISHING_INITIAL_POSE
    requires r.evs[q].ev.QueryEta? && r.evs[q].ev.pose.Some?
    ensures var origin := e.m.nearest(r.states[q].cache, r.evs[q].ev.pose.value).answer;
      origin.Found? && r.states[q+1].status.startId == Text(origin.info.id)
  {
    InvAt(e, r, q);
    assert StepAt(e, r, q);
    QueryEtaOutcome(e, r.states[q], r.evs[q].now, r.evs[q].ev);
  }

  lemma RequestOfPickup(e: Env, r: Run, j: nat) returns (q: nat)
    requires IsRun(e, r) && j <= |r.evs| && PickupQuery(r.states[j])
    ensures q < j && At(r, q) == IDLE && r.evs[q].ev.QueryEta? && r.evs[q].ev.pose.Some?
    ensures Always(r, PickupQuery, q, j)
    ensures r.states[j].query.start == r.evs[q].ev.start && r.states[j].query.goal == r.evs[q].ev.goal
    ensures var origin := e.m.nearest(r.states[q].cache, r.evs[q].ev.pose.value).answer;
      origin.Found? && r.states[j].status.startId == Text(origin.info.id)
  {
    StartPhase(e, r);
    q := EntryOf(r, PickupQuery, j);
    PickupQueryAt(e, r, q);
    QueryAccepted(e, r, q);
    PickupQueryKept(e, r, q, j);
  }

  /** Every successful result answers a request: its pickup leg starts on the lane that was nearest to the
      vehicle when the request was accepted and goes to the requested start, its trip leg from there to
      the requested goal. */
  lemma QuoteOfRequest(e: Env, r: Run, i: nat) returns (q: nat)
    requires IsRun(e, r) && i < |r.evs| && At(r, i) == QUERY_READING_ETA && At(r, i + 1) == ROUTES_READY
    ensures q < i && At(r, q) == IDLE && r.evs[q].ev.QueryEta? && r.evs[q].ev.pose.Some?
    ensures var (ev, result) := (r.evs[q].ev, r.states[i+1].query.result);
      var origin := e.m.nearest(r.states[q].cache, ev.pose.value).answer;
      && origin.Found? && result.pickupLeg.startLane == Text(origin.info.id)
      && result.pickupLeg.goalLane == result.tripLeg.startLane
      && ChainedLegs(e.m, ev.start, ev.goal, result)
  {
    LegAt(e, r, i);
    var k, j := PickupLegQuoted(e, r, i);
    QuoteParts(e, r, j, i);
    q := RequestOfPickup(e, r, j);
    TripQueryKept(e, r, j + 1, i);
  }

  /** On a loaded map: each leg's goal is the first lane nearest to the requested coordinate among those
      in the reachable set of the leg's start. */
  lemma SuccessfulQuoteOnMap(w: World, t: Timings, r: Run, i: nat) returns (p: int, d: int)
    requires WellFormed(w) && IsRun(Env(Lanes(w), t), r) && i < |r.evs|
    requires At(r, i) == QUERY_READING_ETA && At(r, i + 1) == ROUTES_READY
    ensures var q, result := r.states[i].query, r.states[i+1].query.result;
      && result.pickupLeg.startLane.Text? && result.tripLeg.startLane == result.pickupLeg.goalLane
      && LegGoalAt(w, q.start, result.pickupLeg, p) && LegGoalAt(w, q.goal, result.tripLeg, d)
  {
    var _, _, _, _ := SuccessfulQuote(Env(Lanes(w), t), r, i);
    var q, result := r.states[i].query, r.states[i+1].query.result;
    p := GoalIsReachable(w, q.start, result.pickupLeg.startLane.id);
    d := GoalIsReachable(w, q.goal, result.tripLeg.startLane.id);
  }

  /** The leg's goal is lane k of the reachable set of its start, and the first nearest to `to` there. */
  ghost predicate LegGoalAt(w: World, to: Gps, leg: LegEta, k: int) {
    && leg.startLane.Text? && leg.goalLane.Text?
    && FirstNearestAt(w, w.reachable(leg.startLane.id), w.gpsToLocal(to), k)
    && w.reachable(leg.startLane.id)[k].id == leg.goalLane.id
  }

  ghost predicate ChainedLegs(m: Resolver, start: Gps, goal: Gps, result: EtaQueryResult) {
    && result.pickupLeg.startLane.Text? && result.pickupLeg.goalLane.Text?
    && result.tripLeg.startLane.Text? && result.tripLeg.goalLane.Text?
    && m.goalFrom(start, result.pickupLeg.startLane.id) == Some(result.pickupLeg.goalLane.id)
    && m.goalFrom(goal, result.tripLeg.startLane.id) == Some(result.tripLeg.goalLane.id)
  }
}
