/** Runs of the controller that show what the conditions of the main theorems are needed for, built event
    by event. The controller takes startTrip and queryEta from any caller; the application calls them
    only as Agents says, so that not all of these runs are the application's. */
module Scenarios {
  import opened Base
  import opened LaneSpec
  import opened Resolvers
  import opened TripSpec
  import opened Runs
  import opened Steps
  import opened Outputs
  import opened History
  import opened Callbacks
  import opened Gateway

  /** Every coordinate has a lane, and every lane reaches one. */
  ghost predicate AllInReach(m: Resolver) {
    && (forall cache, gps :: m.ok(cache) ==> m.nearest(cache, gps).answer.Found?)
    && (forall gps, id :: m.onMap(id) ==> m.goalFrom(gps, id).Some?)
  }

  // ---- one more event ----

  /** r' continues the run r. */
  ghost predicate Continues(r: Run, r': Run) {
    r'.startGps == r.startGps && r'.t0 == r.t0 && r.evs <= r'.evs && r.states <= r'.states
  }

  ghost predicate NeverTurned(r: Run)
    requires |r.evs| < |r.states|
  {
    forall k :: 0 <= k < |r.evs| ==> !TurnsOver(r, k)
  }

  /** Nothing that r avoided happens in r'. */
  ghost predicate AsClean(r: Run, r': Run)
    requires |r.evs| < |r.states| && |r'.evs| < |r'.states|
  {
    (NeverTurned(r) ==> NeverTurned(r')) && (HasCallbacks(r) ==> HasCallbacks(r'))
  }

  lemma StaysClean(e: Env, r: Run, r': Run, now: int, ev: Event)
    requires |r.states| == |r.evs| + 1 && Grows(e, r, r', now, ev)
    ensures !(ev.StartTrip? && Now(r).status.state == ENGAGING) && NeverTurned(r) ==> NeverTurned(r')
    ensures (ev.QueryEta? ==> ev.cb.Some?) && HasCallbacks(r) ==> HasCallbacks(r')
  {
    forall k | 0 <= k < |r.evs|
      ensures TurnsOver(r', k) <==> TurnsOver(r, k)
      ensures CallsBackAt(r', k) <==> CallsBackAt(r, k)
    {
    }
    assert TurnsOver(r', |r.evs|) <==> ev.StartTrip? && Now(r).status.state == ENGAGING && !Now(r).engagingForPickup;
    assert CallsBackAt(r', |r.evs|) <==> (ev.QueryEta? ==> ev.cb.Some?);
  }

  /** Any event can be handled next; what it makes the gateway count depends on the phases. */
  lemma Play(e: Env, r: Run, now: int, ev: Event) returns (r': Run)
    requires IsRun(e, r)
    ensures Grows(e, r, r', now, ev)
    ensures Told(Now(r')) == TallyAfter(Told(Now(r)), r', |r.evs|)
    ensures !(ev.StartTrip? && Now(r).status.state == ENGAGING) && NeverTurned(r) ==> NeverTurned(r')
    ensures (ev.QueryEta? ==> ev.cb.Some?) && HasCallbacks(r) ==> HasCallbacks(r')
  {
    r' := Extended(e, r, now, ev);
    var _ := TallyAt(e, r', |r.evs|);
    StaysClean(e, r, r', now, ev);
  }

  // ---- events that move a trip on ----

  /** The tick finds what its phase waits for. */
  predicate Primed(s: Ctrl) {
    match s.status.state
    case QUERY_PUBLISHING_INITIAL_POSE | QUERY_PUBLISHING_GOAL | PUBLISHING_INITIAL_POSE => true
    case QUERY_WAITING_LOCALISATION | WAITING_LOCALISATION => Localised(s)
    case QUERY_WAITING_ROUTE => s.inbox.routeState == Some(SET)
    case QUERY_READING_ETA => s.query.etaReceived
    case DRIVING_TO_PICKUP => s.inbox.routeState == Some(ARRIVED)
    case _ => false
  }

  function NextPhase(s: Ctrl): TripState {
    match s.status.state
    case QUERY_PUBLISHING_INITIAL_POSE => QUERY_WAITING_LOCALISATION
    case QUERY_WAITING_LOCALISATION => QUERY_PUBLISHING_GOAL
    case QUERY_PUBLISHING_GOAL => QUERY_WAITING_ROUTE
    case QUERY_WAITING_ROUTE => QUERY_READING_ETA
    case QUERY_READING_ETA => if s.query.leg.Pickup? then QUERY_PUBLISHING_INITIAL_POSE else ROUTES_READY
    case PUBLISHING_INITIAL_POSE => WAITING_LOCALISATION
    case WAITING_LOCALISATION => ENGAGING
    case _ => WAITING_FOR_MOVE
  }

  function NextLeg(s: Ctrl): Leg {
    if s.status.state == QUERY_READING_ETA then Trip else s.query.leg
  }

  lemma PickupLegGoesOn(e: Env, s: Ctrl, now: int)
    requires Sound(e.m) && Inv(e.m, s) && AllInReach(e.m) && s.status.state == QUERY_READING_ETA
    requires s.query.leg.Pickup?
    ensures FinishPickupLeg(e, s, now).status.state == QUERY_PUBLISHING_INITIAL_POSE
  {
    var id := s.status.goalId.id;
    LookupFacts(e.m, s.cache, OfId(id));
    LookupFacts(e.m, s.cache, FromLane(s.query.goal, id));
  }

  lemma TickGoesOn(e: Env, s: Ctrl, now: int)
    requires Sound(e.m) && Inv(e.m, s) && Primed(s) && (s.status.state == QUERY_READING_ETA ==> AllInReach(e.m))
    ensures DoTick(e, s, now, true).status.state != IDLE
    ensures !Querying(s.status.state) ==> DoTick(e, s, now, true).status.state != s.status.state
  {
    if s.status.state == QUERY_READING_ETA && s.query.leg.Pickup? {
      PickupLegGoesOn(e, s, now);
    }
  }

  lemma TickAt(e: Env, r: Run, i: nat)
    requires IsRun(e, r) && i < |r.evs| && Primed(r.states[i]) && r.evs[i].ev == Tick(None, true)
    requires At(r, i) == QUERY_READING_ETA ==> AllInReach(e.m)
    ensures At(r, i + 1) != IDLE && (!Querying(At(r, i)) ==> At(r, i + 1) != At(r, i))
  {
    InvAt(e, r, i);
    assert StepAt(e, r, i);
    TickGoesOn(e, r.states[i], r.evs[i].now);
  }

  /** The phase s' that follows s, with the query it answers and the leg flag. */
  predicate MovedOn(s: Ctrl, s': Ctrl) {
    && s'.status.state == NextPhase(s)
    && (Querying(s.status.state) && Querying(s'.status.state) ==>
          s'.query.cb == s.query.cb && s'.query.leg == NextLeg(s))
    && s'.engagingForPickup == s.engagingForPickup
  }

  lemma PrimedQueryMoves(t: Timings, s: Ctrl, now: int, s': Ctrl)
    requires StepFacts(t, s, now, Tick(None, true), s') && Primed(s) && s'.status.state != IDLE
    requires Querying(s.status.state)
    ensures MovedOn(s, s')
  {
  }

  lemma PrimedDriveMoves(t: Timings, s: Ctrl, now: int, s': Ctrl)
    requires StepFacts(t, s, now, Tick(None, true), s') && Primed(s) && s'.status.state != IDLE
    requires !Querying(s.status.state) && s'.status.state != s.status.state
    ensures MovedOn(s, s')
  {
  }

  lemma TickMoves(e: Env, r: Run, i: nat)
    requires IsRun(e, r) && i < |r.evs| && Primed(r.states[i]) && r.evs[i].ev == Tick(None, true)
    requires At(r, i) == QUERY_READING_ETA ==> AllInReach(e.m)
    ensures MovedOn(r.states[i], r.states[i+1])
  {
    TickAt(e, r, i);
    FactsAt(e, r, i);
    if Querying(At(r, i)) {
      PrimedQueryMoves(e.t, r.states[i], r.evs[i].now, r.states[i+1]);
    } else {
      PrimedDriveMoves(e.t, r.states[i], r.evs[i].now, r.states[i+1]);
    }
  }

  /** What the gateway has been told after a primed tick. */
  function ToldNext(s: Ctrl): Tally {
    var t := Told(s);
    if s.status.state == DRIVING_TO_PICKUP then t.(arrived := t.arrived + 1)
    else if s.status.state == QUERY_READING_ETA && s.query.leg.Trip? && s.query.cb.Some? then t.(etas := t.etas + 1)
    else t
  }

  lemma TickTold(r: Run, i: nat)
    requires |r.states| == |r.evs| + 1 && i < |r.evs|
    requires Primed(r.states[i]) && MovedOn(r.states[i], r.states[i+1])
    ensures TallyAfter(Told(r.states[i]), r, i) == ToldNext(r.states[i])
  {
  }

  lemma TickOutcome(e: Env, r: Run, i: nat)
    requires IsRun(e, r) && i < |r.evs| && Primed(r.states[i]) && r.evs[i].ev == Tick(None, true)
    requires At(r, i) == QUERY_READING_ETA ==> AllInReach(e.m)
    ensures MovedOn(r.states[i], r.states[i+1]) && TallyAfter(Told(r.states[i]), r, i) == ToldNext(r.states[i])
  {
    TickMoves(e, r, i);
    TickTold(r, i);
  }

  lemma PlayTick(e: Env, r: Run, now: int) returns (r': Run)
    requires IsRun(e, r) && Primed(Now(r)) && (Now(r).status.state == QUERY_READING_ETA ==> AllInReach(e.m))
    ensures IsRun(e, r') && Continues(r, r') && AsClean(r, r')
    ensures MovedOn(Now(r), Now(r')) && Told(Now(r')) == ToldNext(Now(r))
  {
    r' := Play(e, r, now, Tick(None, true));
    TickOutcome(e, r', |r.evs|);
  }

  /** The message a phase waits for. */
  predicate Awaited(st: TripState, ev: Event) {
    match st
    case QUERY_WAITING_LOCALISATION | WAITING_LOCALISATION => ev == LocMessage(LOC_INITIALIZED)
    case QUERY_WAITING_ROUTE => ev == RouteStateMessage(SET)
    case QUERY_READING_ETA => ev.EtaMessage?
    case DRIVING_TO_PICKUP => ev == RouteStateMessage(ARRIVED)
    case _ => false
  }

  lemma MessagePrimes(e: Env, s: Ctrl, now: int, ev: Event)
    requires !s.fault && Awaited(s.status.state, ev)
    ensures var s' := Step(e, s, now, ev);
      Primed(s') && s'.status.state == s.status.state && s'.query.cb == s.query.cb && s'.query.leg == s.query.leg
  {
  }

  lemma PlayMessage(e: Env, r: Run, now: int, ev: Event) returns (r': Run)
    requires IsRun(e, r) && Awaited(Now(r).status.state, ev)
    ensures IsRun(e, r') && Continues(r, r') && AsClean(r, r') && Primed(Now(r'))
    ensures Now(r').status.state == Now(r).status.state && Now(r').query.cb == Now(r).query.cb
    ensures Now(r').query.leg == Now(r).query.leg && Told(Now(r')) == Told(Now(r))
  {
    r' := Play(e, r, now, ev);
    InvAt(e, r', |r.evs|);
    assert StepAt(e, r', |r.evs|);
    MessagePrimes(e, Now(r), now, ev);
  }

  /** A command, or the accepted engage request, in the phase that expects it. */
  predicate Expected(s: Ctrl, ev: Event) {
    match s.status.state
    case IDLE => ev.QueryEta? && ev.pose.Some?
    case ROUTES_READY => ev.StartTrip?
    case WAITING_FOR_PICKUP_START => ev.GoToPickup?
    case ENGAGING => ev.EngageAccepted? && s.engagingForPickup
    case WAITING_FOR_MOVE => ev.Move?
    case _ => false
  }

  function Commanded(st: TripState): TripState {
    match st
    case IDLE => QUERY_PUBLISHING_INITIAL_POSE
    case ROUTES_READY => WAITING_FOR_PICKUP_START
    case WAITING_FOR_PICKUP_START => PUBLISHING_INITIAL_POSE
    case WAITING_FOR_MOVE => ENGAGING
    case _ => DRIVING_TO_PICKUP
  }

  lemma QueryMoves(e: Env, s: Ctrl, now: int, ev: Event)
    requires Sound(e.m) && Inv(e.m, s) && AllInReach(e.m) && s.status.state == IDLE && Expected(s, ev)
    ensures Step(e, s, now, ev).status.state == QUERY_PUBLISHING_INITIAL_POSE
  {
    LookupFacts(e.m, s.cache, AtGps(ev.pose.value));
    QueryEtaOutcome(e, s, now, ev);
  }

  lemma CommandMoves(e: Env, s: Ctrl, now: int, ev: Event)
    requires Sound(e.m) && Inv(e.m, s) && Expected(s, ev) && (ev.QueryEta? ==> AllInReach(e.m))
    ensures Step(e, s, now, ev).status.state == Commanded(s.status.state)
  {
    if s.status.state == IDLE {
      QueryMoves(e, s, now, ev);
    } else if s.status.state == ROUTES_READY {
      StartTripInv(e, s, now);
    } else if s.status.state == WAITING_FOR_MOVE {
      MoveInv(e, s, now);
    }
  }

  lemma CommandAt(e: Env, r: Run, i: nat)
    requires IsRun(e, r) && i < |r.evs| && Expected(r.states[i], r.evs[i].ev)
    requires r.evs[i].ev.QueryEta? ==> AllInReach(e.m)
    ensures At(r, i + 1) == Commanded(At(r, i))
  {
    InvAt(e, r, i);
    assert StepAt(e, r, i);
    CommandMoves(e, r.states[i], r.evs[i].now, r.evs[i].ev);
  }

  lemma QueryTaken(e: Env, r: Run, i: nat)
    requires IsRun(e, r) && i < |r.evs| && At(r, i) == IDLE && At(r, i + 1) == QUERY_PUBLISHING_INITIAL_POSE
    ensures r.evs[i].ev.QueryEta? && r.states[i+1].query.leg == Pickup && r.states[i+1].query.cb == r.evs[i].ev.cb
  {
    FactsAt(e, r, i);
  }

  lemma CommandTold(r: Run, i: nat)
    requires |r.states| == |r.evs| + 1 && i < |r.evs|
    requires Expected(r.states[i], r.evs[i].ev) && At(r, i + 1) == Commanded(At(r, i))
    ensures TallyAfter(Told(r.states[i]), r, i) == Told(r.states[i])
  {
  }

  lemma PlayCommand(e: Env, r: Run, now: int, ev: Event) returns (r': Run)
    requires IsRun(e, r) && Expected(Now(r), ev) && (ev.QueryEta? ==> AllInReach(e.m))
    ensures IsRun(e, r') && Continues(r, r')
    ensures (ev.QueryEta? ==> ev.cb.Some?) ==> AsClean(r, r')
    ensures NeverTurned(r) ==> NeverTurned(r')
    ensures Now(r').status.state == Commanded(Now(r).status.state) && Told(Now(r')) == Told(Now(r))
    ensures ev.QueryEta? ==> Now(r').query.leg == Pickup && Now(r').query.cb == ev.cb
  {
    r' := Play(e, r, now, ev);
    CommandAt(e, r', |r.evs|);
    CommandTold(r', |r.evs|);
    if ev.QueryEta? {
      QueryTaken(e, r', |r.evs|);
    }
  }

  // ---- from boot to the pickup ----

  ghost predicate InPhase(e: Env, r: Run, st: TripState) {
    IsRun(e, r) && Now(r).status.state == st
  }

  lemma Booted(e: Env, now: int) returns (r: Run)
    requires Sound(e.m)
    ensures InPhase(e, r, IDLE) && Told(Now(r)) == Tally(0, 0, 0, 0) && NeverTurned(r) && HasCallbacks(r)
  {
    r := Run(None, now, [Boot(e.m, None, now)], []);
    BootAnnouncesNothing(e, r);
  }

  /** One leg of a query, from its first publication to its ETA. */
  lemma LegQuoted(e: Env, r: Run, now: int) returns (r': Run)
    requires InPhase(e, r, QUERY_PUBLISHING_INITIAL_POSE)
    ensures InPhase(e, r', QUERY_READING_ETA) && Primed(Now(r')) && AsClean(r, r') && Told(Now(r')) == Told(Now(r))
    ensures Now(r').query.leg == Now(r).query.leg && Now(r').query.cb == Now(r).query.cb
  {
    r' := PlayTick(e, r, now);
    r' := PlayMessage(e, r', now, LocMessage(LOC_INITIALIZED));
    r' := PlayTick(e, r', now);
    r' := PlayTick(e, r', now);
    r' := PlayMessage(e, r', now, RouteStateMessage(SET));
    r' := PlayTick(e, r', now);
    r' := PlayMessage(e, r', now, EtaMessage(0.0, 0.0));
  }

  lemma TripQuotedFromBoot(e: Env, now: int, cb: Option<Callback>) returns (r: Run)
    requires Sound(e.m) && AllInReach(e.m)
    ensures InPhase(e, r, ROUTES_READY) && Told(Now(r)) == Tally(0, 0, 0, One(cb.Some?))
    ensures NeverTurned(r) && (cb.Some? ==> HasCallbacks(r))
  {
    r := Booted(e, now);
    r := PlayCommand(e, r, now, QueryEta(ORIGIN, ORIGIN, cb, Some(ORIGIN)));
    r := LegQuoted(e, r, now);
    r := PlayTick(e, r, now);
    r := LegQuoted(e, r, now);
    r := PlayTick(e, r, now);
  }

  lemma TripOrdered(e: Env, r: Run, now: int) returns (r': Run)
    requires InPhase(e, r, ROUTES_READY)
    ensures InPhase(e, r', WAITING_LOCALISATION) && AsClean(r, r') && Told(Now(r')) == Told(Now(r))
  {
    r' := PlayCommand(e, r, now, StartTrip);
    r' := PlayCommand(e, r', now, GoToPickup);
    r' := PlayTick(e, r', now);
  }

  lemma FlagBeforeTrip(e: Env, r: Run)
    requires InPhase(e, r, WAITING_LOCALISATION)
    ensures Now(r).engagingForPickup
  {
    FlagSaysPickup(e, r, |r.evs|);
  }

  lemma TripSetUp(e: Env, r: Run, now: int) returns (r': Run)
    requires InPhase(e, r, ROUTES_READY)
    ensures InPhase(e, r', ENGAGING) && Now(r').engagingForPickup && AsClean(r, r') && Told(Now(r')) == Told(Now(r))
  {
    r' := TripOrdered(e, r, now);
    r' := PlayMessage(e, r', now, LocMessage(LOC_INITIALIZED));
    FlagBeforeTrip(e, r');
    r' := PlayTick(e, r', now);
  }

  lemma DrivenToPickup(e: Env, r: Run, now: int) returns (r': Run)
    requires InPhase(e, r, ENGAGING) && Now(r).engagingForPickup
    ensures InPhase(e, r', WAITING_FOR_MOVE) && Continues(r, r') && AsClean(r, r')
    ensures Told(Now(r')) == Told(Now(r)).(arrived := Told(Now(r)).arrived + 1)
  {
    var r1 := PlayCommand(e, r, now, EngageAccepted);
    var r2 := PlayMessage(e, r1, now, RouteStateMessage(ARRIVED));
    r' := PlayTick(e, r2, now);
    ContinuesOn(r, r1, r2);
    ContinuesOn(r, r2, r');
  }

  /** Where every coordinate has a lane within reach, some run without a stray startTrip gets from boot
      to the pickup. */
  lemma PickupReachable(e: Env, now: int, cb: Option<Callback>) returns (r: Run)
    requires Sound(e.m) && AllInReach(e.m)
    ensures InPhase(e, r, WAITING_FOR_MOVE) && Told(Now(r)) == Tally(0, 0, 1, One(cb.Some?))
    ensures NeverTurned(r) && (cb.Some? ==> HasCallbacks(r))
  {
    r := TripQuotedFromBoot(e, now, cb);
    r := TripSetUp(e, r, now);
    r := DrivenToPickup(e, r, now);
  }

  // ---- arrivals that outnumber quotes ----

  lemma ContinuesOn(a: Run, b: Run, c: Run)
    requires Continues(a, b) && Continues(b, c)
    ensures Continues(a, c)
  {
  }

  /** A startTrip handled while the trip leg is being engaged. */
  lemma PlayStray(e: Env, r: Run, now: int) returns (r': Run)
    requires InPhase(e, r, ENGAGING)
    ensures InPhase(e, r', ENGAGING) && Now(r').engagingForPickup && Continues(r, r')
    ensures Told(Now(r')) == Told(Now(r)) && (HasCallbacks(r) ==> HasCallbacks(r'))
  {
    r' := Play(e, r, now, StartTrip);
    PhaseAt(e, r', |r.evs|);
    FlagAt(e, r', |r.evs|);
  }

  /** Any run that waits at the pickup can go on to arrive there again, if someone calls startTrip between
      the move command and the engagement: the trip leg then ends as a drive to the pickup. */
  lemma ArrivalCanRepeat(e: Env, r: Run, now: int) returns (r': Run)
    requires InPhase(e, r, WAITING_FOR_MOVE)
    ensures InPhase(e, r', WAITING_FOR_MOVE) && Continues(r, r') && (HasCallbacks(r) ==> HasCallbacks(r'))
    ensures Told(Now(r')) == Told(Now(r)).(arrived := Told(Now(r)).arrived + 1)
  {
    var r1 := PlayCommand(e, r, now, Move);
    var r2 := PlayStray(e, r1, now);
    r' := DrivenToPickup(e, r2, now);
    ContinuesOn(r, r1, r2);
    ContinuesOn(r, r2, r');
  }

  /** So whatever has been reported before, a caller of startTrip other than the application can make
      arrivals outnumber ETA reports. */
  lemma {:induction false} ArrivalsCanOutnumberEtas(e: Env, r: Run, now: int) returns (r': Run)
    requires InPhase(e, r, WAITING_FOR_MOVE)
    ensures IsRun(e, r') && Continues(r, r') && (HasCallbacks(r) ==> HasCallbacks(r'))
    ensures Told(Now(r')).arrived > Told(Now(r')).etas == Told(Now(r)).etas
    decreases Told(Now(r)).etas - Told(Now(r)).arrived
  {
    var r1 := ArrivalCanRepeat(e, r, now);
    if Told(Now(r1)).arrived > Told(Now(r1)).etas {
      r' := r1;
    } else {
      r' := ArrivalsCanOutnumberEtas(e, r1, now);
      ContinuesOn(r, r1, r');
    }
  }

  // ---- two small maps ----

  /** A map of one lane. */
  ghost function MapOf(l: Lane): World {
    World([l], id => if id == l.id then [l] else [], (gps: Gps) => Local(gps.latitude, gps.longitude, 0.0),
          (p: Local) => Gps(p.x, p.y), c => Orientation(0.0, 1.0, 0.0), x => x, 0.0, 0.0, Local(0.0, 0.0, 0.0))
  }

  const ROAD := Lane(1, None, [Local(0.0, 0.0, 0.0), Local(1.0, 0.0, 0.0)])

  const CROSSWALK := Lane(1, Some("crosswalk"), [Local(0.0, 0.0, 0.0), Local(1.0, 0.0, 0.0)])

  lemma RoadInReach()
    ensures WellFormed(MapOf(ROAD)) && AllInReach(Lanes(MapOf(ROAD)))
  {
    var w := MapOf(ROAD);
    forall target
      ensures Best(w, [ROAD], target).Some?
    {
      var _ := BestIsFirstNearest(w, [ROAD], target);
      assert Usable([ROAD][0]);
    }
    forall id | LaneOf(w.lanes, id).Some?
      ensures Connected(w, id, true) == [ROAD]
    {
    }
  }

  /** A controller run from boot with more arrivals than ETA reports, although every query has its
      callback: startTrip was called twice for one report. */
  lemma SecondArrivalFromBoot(t: Timings, now: int) returns (r: Run)
    ensures IsRun(Env(Lanes(MapOf(ROAD)), t), r) && HasCallbacks(r) && Told(Now(r)) == Tally(0, 0, 2, 1)
  {
    var e := Env(Lanes(MapOf(ROAD)), t);
    RoadInReach();
    LanesSound(MapOf(ROAD));
    r := PickupReachable(e, now, Some(0));
    r := ArrivalCanRepeat(e, r, now);
  }

  /** And one without a stray startTrip, when the query had no callback. */
  lemma UnreportedArrivalFromBoot(t: Timings, now: int) returns (r: Run)
    ensures IsRun(Env(Lanes(MapOf(ROAD)), t), r) && NeverTurned(r) && Told(Now(r)) == Tally(0, 0, 1, 0)
  {
    RoadInReach();
    LanesSound(MapOf(ROAD));
    r := PickupReachable(Env(Lanes(MapOf(ROAD)), t), now, None);
  }

  /** The observer can be wrong: a cancel in ROUTES_READY is not announced as a change of phase. */
  lemma ObserverCanBeWrong(t: Timings, now: int) returns (r: Run)
    ensures IsRun(Env(Lanes(MapOf(ROAD)), t), r)
    ensures Observed(Now(r).log) == ROUTES_READY && Now(r).status.state == IDLE
  {
    RoadInReach();
    LanesSound(MapOf(ROAD));
    var e := Env(Lanes(MapOf(ROAD)), t);
    var r0 := TripQuotedFromBoot(e, now, None);
    r := Extended(e, r0, now, Cancel);
    CancelUnseen(e, r, |r0.evs|);
  }

  lemma CancelUnseen(e: Env, r: Run, i: nat)
    requires IsRun(e, r) && i < |r.evs| && At(r, i) == ROUTES_READY && r.evs[i].ev == Cancel
    ensures Observed(r.states[i+1].log) == ROUTES_READY && At(r, i + 1) == IDLE
  {
    PhaseAt(e, r, i);
    ObservedAt(e, r, i);
    ObserverView(e, r, i);
  }

  lemma CrosswalkMissing(cache: seq<LaneInfo>, gps: Gps)
    ensures WellFormed(MapOf(CROSSWALK)) && Lanes(MapOf(CROSSWALK)).nearest(cache, gps).answer.Missing?
  {
    var w := MapOf(CROSSWALK);
    var _ := BestIsFirstNearest(w, [CROSSWALK], w.gpsToLocal(gps));
  }

  /** Where no lane is found queryEta says true although no leg is started and the query has failed
      when it returns. */
  lemma QueryFailsAtOnce(e: Env, r: Run, now: int, ev: Event) returns (r': Run)
    requires InPhase(e, r, IDLE) && ev.QueryEta? && ev.pose.Some? && ev.cb.Some?
    requires e.m.nearest(Now(r).cache, ev.pose.value).answer.Missing?
    ensures Grows(e, r, r', now, ev) && Now(r').status.state == IDLE
    ensures DoQueryEta(e, Now(r), now, ev.start, ev.goal, ev.cb, ev.pose).1
    ensures Fired(Now(r), ev, Now(r')) == Some(Fire(ev.cb.value, Now(r').query.result)) && !Now(r').query.result.success
  {
    InvAt(e, r, |r.evs|);
    QueryEtaOutcome(e, Now(r), now, ev);
    r' := Extended(e, r, now, ev);
    assert StepAt(e, r', |r.evs|);
    SendsAt(e, r', |r.evs|);
  }

  /** As on a map of one crosswalk. */
  lemma AcceptedQueryFails(t: Timings, now: int, cb: Callback) returns (r: Run, r': Run)
    ensures var e, ev := Env(Lanes(MapOf(CROSSWALK)), t), QueryEta(ORIGIN, ORIGIN, Some(cb), Some(ORIGIN));
      && InPhase(e, r, IDLE) && Grows(e, r, r', now, ev) && Now(r').status.state == IDLE
      && DoQueryEta(e, Now(r), now, ORIGIN, ORIGIN, Some(cb), Some(ORIGIN)).1
      && Fired(Now(r), ev, Now(r')) == Some(Fire(cb, Now(r').query.result)) && !Now(r').query.result.success
  {
    CrosswalkMissing([], ORIGIN);
    LanesSound(MapOf(CROSSWALK));
    var e := Env(Lanes(MapOf(CROSSWALK)), t);
    r := Booted(e, now);
    CrosswalkMissing(Now(r).cache, ORIGIN);
    r' := QueryFailsAtOnce(e, r, now, QueryEta(ORIGIN, ORIGIN, Some(cb), Some(ORIGIN)));
  }
}
