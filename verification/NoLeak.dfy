/** Nothing of an earlier trip influences a later one: fields that survive it are never read. */
module NoLeak {
  import opened Base
  import opened LaneSpec
  import opened Resolvers
  import opened TripSpec
  import opened Runs

  // ---- what each phase can still read ----

  predicate ReadsMailbox(st: TripState) {
    st == QUERY_WAITING_ROUTE || Committed(st)
  }

  predicate ReadsFlag(st: TripState) {
    match st
    case WAITING_FOR_PICKUP_START | PUBLISHING_INITIAL_POSE | WAITING_LOCALISATION | ENGAGING => true
    case _ => false
  }

  function LiveInbox(s: Ctrl): Inbox {
    Inbox(s.inbox.locState, if ReadsMailbox(s.status.state) then s.inbox.routeState else None,
          s.inbox.modeAvailable, None, false)
  }

  function LiveQuery(s: Ctrl): Query {
    var q := s.query;
    var read := s.status.state == QUERY_READING_ETA && q.etaReceived;
    if Querying(s.status.state) then
      Query(false, q.leg, q.start, q.goal, q.cb, q.result, read,
            if read then q.etaDistance else 0.0, if read then q.etaSeconds else 0.0)
    else INITIAL_QUERY.(cb := q.cb)
  }

  /** A held route without the planner's message, which nothing reads. */
  function LiveHeld(h: Option<HeldRoute>): Option<HeldRoute> {
    if h.Some? then Some(h.value.(route := [])) else None
  }

  /** The state with every field that the current phase cannot read put to a fixed value. */
  function Live(s: Ctrl): Ctrl {
    Ctrl(s.status,
         ReadsFlag(s.status.state) && s.engagingForPickup,
         LiveInbox(s),
         if s.status.state == IDLE then Clock(0, 0) else s.clock,
         s.initPose,
         LiveQuery(s),
         Bank(LiveHeld(s.bank.pickup), LiveHeld(s.bank.trip)),
         s.cache, s.start, s.fault, s.log)
  }

  /** Equal in everything a running query can read. */
  ghost predicate Alike(s: Ctrl, t: Ctrl) {
    && s.status == t.status && s.initPose == t.initPose && s.cache == t.cache && s.start == t.start
    && s.fault == t.fault && s.log == t.log
    && s.inbox.locState == t.inbox.locState && s.inbox.modeAvailable == t.inbox.modeAvailable
    && s.query.leg == t.query.leg && s.query.start == t.query.start && s.query.goal == t.query.goal
    && s.query.cb == t.query.cb && s.query.result == t.query.result
    && LiveHeld(s.bank.pickup) == LiveHeld(t.bank.pickup) && LiveHeld(s.bank.trip) == LiveHeld(t.bank.trip)
  }

  ghost predicate SameEta(s: Ctrl, t: Ctrl) {
    s.query.etaDistance == t.query.etaDistance && s.query.etaSeconds == t.query.etaSeconds
  }

  // ---- operations on states that are alike ----

  lemma FailAlike(s: Ctrl, t: Ctrl, now: int, reason: QueryError)
    requires Alike(s, t)
    ensures Live(FailQuery(s, now, reason)) == Live(FailQuery(t, now, reason))
  {
  }

  lemma LegFromAlike(e: Env, s: Ctrl, t: Ctrl, now: int, a: LaneInfo, to: Gps)
    requires Sound(e.m) && e.m.ok(s.cache) && e.m.onMap(a.id)
    requires Alike(s, t) && s.status.state != QUERY_PUBLISHING_INITIAL_POSE
    ensures Live(LegFrom(e, s, now, a, to)) == Live(LegFrom(e, t, now, a, to))
  {
    LookupFacts(e.m, s.cache, FromLane(to, a.id));
    var m := e.m.connected(s.cache, to, a.id);
    if m.answer.Missing? {
      var n := e.m.nearest(m.cache, to);
      FailAlike(s.(cache := n.cache), t.(cache := n.cache), now,
                Unreached(n.answer, a.id));
    }
  }

  lemma StartLegAlike(e: Env, s: Ctrl, t: Ctrl, now: int, from: Gps, to: Gps)
    requires Sound(e.m) && e.m.ok(s.cache) && Alike(s, t) && s.status.state != QUERY_PUBLISHING_INITIAL_POSE
    requires s.query.leg.Trip? ==> s.status.goalId.Text? && e.m.entry(s.cache, s.status.goalId.id).Some?
    ensures Live(StartQueryLeg(e, s, now, from, to)) == Live(StartQueryLeg(e, t, now, from, to))
  {
    var l := StartLane(e, s, from);
    LookupFacts(e.m, s.cache, AtGps(from));
    if s.query.leg.Trip? {
      LookupFacts(e.m, s.cache, OfId(s.status.goalId.id));
    }
    match l.answer
    case Threw =>
    case Missing => FailAlike(s.(cache := l.cache), t.(cache := l.cache), now, NoOriginLane(s.query.leg));
    case Found(a) => LegFromAlike(e, s.(cache := l.cache), t.(cache := l.cache), now, a, to);
  }

  lemma FinishPickupAlike(e: Env, s: Ctrl, t: Ctrl, now: int)
    requires Sound(e.m) && e.m.ok(s.cache) && Alike(s, t) && SameEta(s, t)
    requires s.status.state == QUERY_READING_ETA && s.query.leg.Pickup? && PickupLegInv(e.m, s)
    ensures Live(FinishPickupLeg(e, s, now)) == Live(FinishPickupLeg(e, t, now))
  {
    var result := s.query.result.(pickupLeg := LegResult(s));
    var id := s.status.goalId.id;
    var s1 := ClearRoute(s.(query := s.query.(result := result, leg := Trip),
                            bank := s.bank.(pickup := Some(Held(s, s.query.start, id)))));
    var t1 := ClearRoute(t.(query := t.query.(result := result, leg := Trip),
                            bank := t.bank.(pickup := Some(Held(t, t.query.start, id)))));
    StartLegAlike(e, s1, t1, now, s.query.start, s.query.goal);
  }

  lemma FinishTripAlike(s: Ctrl, t: Ctrl, now: int)
    requires Alike(s, t) && SameEta(s, t)
    ensures Live(FinishTripLeg(s, now)) == Live(FinishTripLeg(t, now))
  {
  }

  // ---- each step sees only the live part ----

  lemma AcceptedQueryBlind(e: Env, s: Ctrl, now: int, ev: Event)
    requires Sound(e.m) && Inv(e.m, s) && ev.QueryEta? && s.status.state == IDLE && ev.pose.Some?
    ensures Live(Step(e, s, now, ev)) == Live(Step(e, Live(s), now, ev))
  {
    var t := Live(s);
    var s1 := s.(query := Asked(s.query, ev.start, ev.goal, ev.cb),
                 bank := EMPTY_BANK);
    var t1 := t.(query := Asked(t.query, ev.start, ev.goal, ev.cb),
                 bank := EMPTY_BANK);
    StartLegAlike(e, s1, t1, now, ev.pose.value, ev.start);
  }

  lemma RejectBlind(s: Ctrl, cb: Option<Callback>, reason: QueryError)
    ensures Live(Reject(s, cb, reason)) == Live(Reject(Live(s), cb, reason))
  {
    LiveTwice(s);
  }

  lemma QueryEtaBlind(e: Env, s: Ctrl, now: int, ev: Event)
    requires Sound(e.m) && Inv(e.m, s) && ev.QueryEta?
    ensures Live(Step(e, s, now, ev)) == Live(Step(e, Live(s), now, ev))
  {
    if s.status.state != IDLE {
      RejectBlind(s, ev.cb, NotIdle(s.status.state));
    } else if ev.pose.None? {
      RejectBlind(s, ev.cb, NotLocalised);
    } else {
      AcceptedQueryBlind(e, s, now, ev);
    }
  }

  lemma EtaBlind(s: Ctrl, distance: real, seconds: real)
    ensures Live(InjectEta(s, distance, seconds)) == Live(InjectEta(Live(s), distance, seconds))
  {
  }

  lemma EngageBlind(s: Ctrl, now: int)
    ensures Live(DoEngageAccepted(s, now)) == Live(DoEngageAccepted(Live(s), now))
  {
  }

  lemma DeliverBlind(s: Ctrl, ev: Event)
    ensures Live(s.(inbox := Deliver(s.inbox, ev))) == Live(Live(s).(inbox := Deliver(Live(s).inbox, ev)))
  {
  }

  lemma MessageBlind(e: Env, s: Ctrl, now: int, ev: Event)
    requires IsMessage(ev) && !s.fault
    ensures Live(Step(e, s, now, ev)) == Live(Step(e, Live(s), now, ev))
  {
    match ev
    case EtaMessage(distance, seconds) => EtaBlind(s, distance, seconds);
    case EngageAccepted => EngageBlind(s, now);
    case _ => DeliverBlind(s, ev);
  }

  lemma CancelBlind(s: Ctrl, now: int)
    ensures Live(DoCancel(s, now)) == Live(DoCancel(Live(s), now))
  {
  }

  lemma ReadEtaBlind(e: Env, s: Ctrl, now: int)
    requires Sound(e.m) && Inv(e.m, s) && s.status.state == QUERY_READING_ETA
    ensures Live(TickReadEta(e, s, now)) == Live(TickReadEta(e, Live(s), now))
  {
    var t := Live(s);
    if s.query.etaReceived || now - s.clock.enteredAt >= e.t.etaSettle {
      var s1 := if s.query.etaReceived then s else WithoutEta(s);
      var t1 := if t.query.etaReceived then t else WithoutEta(t);
      if s.query.leg.Pickup? {
        FinishPickupAlike(e, s1, t1, now);
      } else {
        FinishTripAlike(s1, t1, now);
      }
    }
  }

  lemma LocalisationBlind(e: Env, s: Ctrl, now: int)
    requires s.status.state == QUERY_WAITING_LOCALISATION
    ensures Live(TickWaitLocalisation(e, s, now)) == Live(TickWaitLocalisation(e, Live(s), now))
  {
    var t := Live(s);
    if !Localised(s) {
      FailAlike(Republish(s, now, 1000, InitialPose(s.status.startPose)),
                Republish(t, now, 1000, InitialPose(t.status.startPose)),
                now, LocalisationTimeout(s.query.leg));
    }
  }

  lemma RouteBlind(e: Env, s: Ctrl, now: int)
    requires s.status.state == QUERY_WAITING_ROUTE
    ensures Live(TickWaitRoute(e, s, now)) == Live(TickWaitRoute(e, Live(s), now))
  {
    var t := Live(s);
    if s.inbox.routeState != Some(SET) {
      FailAlike(Republish(s, now, 2000, Goal(s.status.goalPose)), Republish(t, now, 2000, Goal(t.status.goalPose)),
                now, RouteTimeout(s.query.leg, s.status.startId, s.status.goalId));
    }
  }

  /** Equal in everything a trip being driven can read. */
  ghost predicate AlikeInTrip(s: Ctrl, t: Ctrl, next: TripState) {
    && s.status == t.status && s.initPose == t.initPose && s.cache == t.cache && s.start == t.start
    && s.fault == t.fault && s.log == t.log && s.query.cb == t.query.cb
    && s.inbox.locState == t.inbox.locState && s.inbox.modeAvailable == t.inbox.modeAvailable
    && (ReadsMailbox(next) ==> s.inbox.routeState == t.inbox.routeState)
    && (ReadsFlag(next) ==> s.engagingForPickup == t.engagingForPickup)
    && LiveHeld(s.bank.pickup) == LiveHeld(t.bank.pickup) && LiveHeld(s.bank.trip) == LiveHeld(t.bank.trip)
  }

  lemma TransitionLive(s: Ctrl, t: Ctrl, now: int, next: TripState)
    requires AlikeInTrip(s, t, next) && s.status.state != next && !Querying(next)
    ensures Live(TransitionTo(s, now, next)) == Live(TransitionTo(t, now, next))
  {
  }

  lemma RepublishLive(s: Ctrl, now: int, period: int, o: Output)
    requires s.status.state != IDLE
    ensures Live(Republish(s, now, period, o)) == Live(Republish(Live(s), now, period, o))
  {
  }

  lemma EngagingBlind(s: Ctrl, now: int, ready: bool)
    requires s.status.state == ENGAGING
    ensures Live(TickDrive(s, now, ready)) == Live(TickDrive(Live(s), now, ready))
  {
    RepublishLive(s, now, 2000, EngageAttempt(EngageSent(s, ready)));
  }

  lemma DrivingBlind(s: Ctrl, now: int, ready: bool)
    requires s.status.state == DRIVING_TO_PICKUP
    ensures Live(TickDrive(s, now, ready)) == Live(TickDrive(Live(s), now, ready))
  {
    var t := Live(s);
    if s.inbox.routeState == Some(ARRIVED) {
      TransitionLive(ClearRouteState(Emit(s, PickupArrived)),
                     ClearRouteState(Emit(t, PickupArrived)), now, WAITING_FOR_MOVE);
    } else {
      LiveTwice(s);
    }
  }

  lemma RunningBlind(s: Ctrl, now: int, ready: bool)
    requires s.status.state == RUNNING
    ensures Live(TickDrive(s, now, ready)) == Live(TickDrive(Live(s), now, ready))
  {
    var t := Live(s);
    if s.inbox.routeState == Some(ARRIVED) {
      TransitionLive(ClearRouteState(Emit(s, DropoffArrived)),
                     ClearRouteState(Emit(t, DropoffArrived)), now, COMPLETED);
    } else {
      LiveTwice(s);
    }
  }

  lemma PublishBlind(e: Env, s: Ctrl, now: int)
    requires s.status.state == QUERY_PUBLISHING_INITIAL_POSE || s.status.state == QUERY_PUBLISHING_GOAL
    ensures Live(TickQuery(e, s, now)) == Live(TickQuery(e, Live(s), now))
  {
  }

  lemma InitializingBlind(e: Env, s: Ctrl, now: int, ready: bool)
    requires s.status.state == INITIALIZING_IN_MAP
    ensures Live(DoTick(e, s, now, ready)) == Live(DoTick(e, Live(s), now, ready))
  {
    if Localised(s) {
      TransitionLive(s, Live(s), now, IDLE);
    } else {
      RepublishLive(s, now, 1000, InitialPose(s.initPose));
    }
  }

  lemma PublishPoseBlind(e: Env, s: Ctrl, now: int, ready: bool)
    requires s.status.state == PUBLISHING_INITIAL_POSE
    ensures Live(DoTick(e, s, now, ready)) == Live(DoTick(e, Live(s), now, ready))
  {
    TransitionLive(Emit(s, InitialPose(s.initPose)), Emit(Live(s), InitialPose(s.initPose)), now, WAITING_LOCALISATION);
  }

  lemma WaitBlind(e: Env, s: Ctrl, now: int, ready: bool)
    requires s.status.state == WAITING_LOCALISATION
    ensures Live(DoTick(e, s, now, ready)) == Live(DoTick(e, Live(s), now, ready))
  {
    if Localised(s) {
      TransitionLive(Emit(s, Goal(s.status.startPose)), Emit(Live(s), Goal(s.status.startPose)), now, ENGAGING);
    } else {
      RepublishLive(s, now, 1000, InitialPose(s.initPose));
    }
  }

  lemma LiveTwice(s: Ctrl)
    ensures Live(Live(s)) == Live(s)
  {
  }

  lemma DoTickBlind(e: Env, s: Ctrl, now: int, ready: bool)
    requires Sound(e.m) && Inv(e.m, s)
    ensures Live(DoTick(e, s, now, ready)) == Live(DoTick(e, Live(s), now, ready))
  {
    if Querying(s.status.state) {
      TickQueryBlind(e, s, now);
    } else {
      TickDriveBlind(e, s, now, ready);
    }
  }

  lemma TickQueryBlind(e: Env, s: Ctrl, now: int)
    requires Sound(e.m) && Inv(e.m, s) && Querying(s.status.state)
    ensures Live(TickQuery(e, s, now)) == Live(TickQuery(e, Live(s), now))
  {
    match s.status.state
    case QUERY_WAITING_LOCALISATION => LocalisationBlind(e, s, now);
    case QUERY_WAITING_ROUTE => RouteBlind(e, s, now);
    case QUERY_READING_ETA => ReadEtaBlind(e, s, now);
    case _ => PublishBlind(e, s, now);
  }

  lemma TickDriveBlind(e: Env, s: Ctrl, now: int, ready: bool)
    requires Inv(e.m, s) && !Querying(s.status.state)
    ensures Live(DoTick(e, s, now, ready)) == Live(DoTick(e, Live(s), now, ready))
  {
    match s.status.state
    case ENGAGING => EngagingBlind(s, now, ready);
    case DRIVING_TO_PICKUP => DrivingBlind(s, now, ready);
    case RUNNING => RunningBlind(s, now, ready);
    case INITIALIZING_IN_MAP => InitializingBlind(e, s, now, ready);
    case PUBLISHING_INITIAL_POSE => PublishPoseBlind(e, s, now, ready);
    case WAITING_LOCALISATION => WaitBlind(e, s, now, ready);
    case _ => LiveTwice(s);
  }

  lemma TickBlind(e: Env, s: Ctrl, now: int, pose: Option<Gps>, ready: bool)
    requires Sound(e.m) && Inv(e.m, s)
    ensures Live(Step(e, s, now, Tick(pose, ready))) == Live(Step(e, Live(s), now, Tick(pose, ready)))
  {
    var s1 := SetCurrentGps(s, pose);
    SameCoreInv(e.m, s, s1);
    assert Live(s1) == SetCurrentGps(Live(s), pose);
    DoTickBlind(e, s1, now, ready);
  }

  lemma RepliedBlind(a: (Ctrl, bool), b: (Ctrl, bool))
    requires Live(a.0) == Live(b.0) && a.1 == b.1
    ensures Live(Replied(a)) == Live(Replied(b))
  {
  }

  lemma StartTripBlind(e: Env, s: Ctrl, now: int)
    requires Sound(e.m) && Inv(e.m, s)
    ensures Live(DoStartTrip(e, s, now).0) == Live(DoStartTrip(e, Live(s), now).0)
    ensures DoStartTrip(e, s, now).1 == DoStartTrip(e, Live(s), now).1
  {
    if s.status.state == ROUTES_READY {
      var s1 := s.(engagingForPickup := true, inbox := s.inbox.(routeState := None));
      var t1 := Live(s).(engagingForPickup := true, inbox := Live(s).inbox.(routeState := None));
      AcceptTripBlind(e, s1, t1, now, s.bank.pickup.value, Live(s).bank.pickup.value);
    }
  }

  lemma AcceptTripBlind(e: Env, s: Ctrl, t: Ctrl, now: int, held: HeldRoute, held': HeldRoute)
    requires Sound(e.m) && e.m.ok(s.cache) && s.status.state == ROUTES_READY
    requires AlikeInTrip(s, t, WAITING_FOR_PICKUP_START) && held'.(route := []) == held.(route := [])
    requires e.m.entry(s.cache, held.goalLane).Some?
    ensures Live(AcceptTrip(e, s, now, held).0) == Live(AcceptTrip(e, t, now, held').0)
    ensures AcceptTrip(e, s, now, held).1 == AcceptTrip(e, t, now, held').1
  {
    LookupFacts(e.m, s.cache, OfId(held.goalLane));
  }

  lemma GoToPickupBlind(s: Ctrl, now: int)
    ensures Live(DoGoToPickup(s, now).0) == Live(DoGoToPickup(Live(s), now).0)
    ensures DoGoToPickup(s, now).1 == DoGoToPickup(Live(s), now).1
  {
    LiveTwice(s);
  }

  lemma MoveBlind(e: Env, s: Ctrl, now: int)
    requires Sound(e.m) && Inv(e.m, s)
    ensures Live(DoMove(e, s, now).0) == Live(DoMove(e, Live(s), now).0)
    ensures DoMove(e, s, now).1 == DoMove(e, Live(s), now).1
  {
    LiveTwice(s);
    if s.status.state == WAITING_FOR_MOVE {
      AcceptedMoveBlind(e, s, now);
    }
  }

  lemma EngageToBlind(s: Ctrl, now: int, b: LaneInfo, held: HeldRoute, held': HeldRoute)
    requires s.status.state == WAITING_FOR_MOVE && held'.(route := []) == held.(route := [])
    ensures Live(EngageTo(s, now, b, held)) == Live(EngageTo(Live(s), now, b, held'))
  {
  }

  lemma AcceptedMoveBlind(e: Env, s: Ctrl, now: int)
    requires Sound(e.m) && Inv(e.m, s) && s.status.state == WAITING_FOR_MOVE
    ensures Live(DoMove(e, s, now).0) == Live(DoMove(e, Live(s), now).0)
    ensures DoMove(e, s, now).1 == DoMove(e, Live(s), now).1
  {
    var held, id := s.bank.trip.value, s.status.startId.id;
    LookupFacts(e.m, s.cache, FromLane(held.goalGps, id));
    var m := e.m.connected(s.cache, held.goalGps, id);
    EngageToBlind(s.(cache := m.cache), now, m.answer.info, held, Live(s).bank.trip.value);
  }

  lemma MoveCommandBlind(e: Env, s: Ctrl, now: int)
    requires Sound(e.m) && Inv(e.m, s)
    ensures Live(DoMoveCommand(e, s, now).0) == Live(DoMoveCommand(e, Live(s), now).0)
    ensures DoMoveCommand(e, s, now).1 == DoMoveCommand(e, Live(s), now).1
  {
    LiveTwice(s);
    if s.status.state == WAITING_FOR_MOVE {
      MoveBlind(e, s, now);
    } else if s.status.state == WAITING_FOR_PICKUP_START {
      GoToPickupBlind(s, now);
    }
  }

  lemma CommandSteps(e: Env, s: Ctrl, now: int)
    requires !s.fault
    ensures Step(e, s, now, StartTrip) == Replied(DoStartTrip(e, s, now))
    ensures Step(e, s, now, GoToPickup) == Replied(DoGoToPickup(s, now))
    ensures Step(e, s, now, MoveCommand) == Replied(DoMoveCommand(e, s, now))
    ensures Step(e, s, now, Move) == Replied(DoMove(e, s, now))
  {
  }

  lemma StartTripStep(e: Env, s: Ctrl, now: int)
    requires Sound(e.m) && Inv(e.m, s)
    ensures Live(Step(e, s, now, StartTrip)) == Live(Step(e, Live(s), now, StartTrip))
  {
    CommandSteps(e, s, now);
    CommandSteps(e, Live(s), now);
    StartTripBlind(e, s, now);
    RepliedBlind(DoStartTrip(e, s, now), DoStartTrip(e, Live(s), now));
  }

  lemma GoToPickupStep(e: Env, s: Ctrl, now: int)
    requires Sound(e.m) && Inv(e.m, s)
    ensures Live(Step(e, s, now, GoToPickup)) == Live(Step(e, Live(s), now, GoToPickup))
  {
    CommandSteps(e, s, now);
    CommandSteps(e, Live(s), now);
    GoToPickupBlind(s, now);
    RepliedBlind(DoGoToPickup(s, now), DoGoToPickup(Live(s), now));
  }

  lemma MoveCommandStep(e: Env, s: Ctrl, now: int)
    requires Sound(e.m) && Inv(e.m, s)
    ensures Live(Step(e, s, now, MoveCommand)) == Live(Step(e, Live(s), now, MoveCommand))
  {
    CommandSteps(e, s, now);
    CommandSteps(e, Live(s), now);
    MoveCommandBlind(e, s, now);
    RepliedBlind(DoMoveCommand(e, s, now), DoMoveCommand(e, Live(s), now));
  }

  lemma MoveStep(e: Env, s: Ctrl, now: int)
    requires Sound(e.m) && Inv(e.m, s)
    ensures Live(Step(e, s, now, Move)) == Live(Step(e, Live(s), now, Move))
  {
    CommandSteps(e, s, now);
    CommandSteps(e, Live(s), now);
    MoveBlind(e, s, now);
    RepliedBlind(DoMove(e, s, now), DoMove(e, Live(s), now));
  }

  /** One step of any kind: what it sends and what can be read afterwards depend on the live part only. */
  lemma StepBlind(e: Env, s: Ctrl, now: int, ev: Event)
    requires Sound(e.m) && Inv(e.m, s)
    ensures Live(Step(e, s, now, ev)) == Live(Step(e, Live(s), now, ev))
  {
    match ev
    case Tick(pose, ready) => TickBlind(e, s, now, pose, ready);
    case QueryEta(_, _, _, _) => QueryEtaBlind(e, s, now, ev);
    case StartTrip => StartTripStep(e, s, now);
    case GoToPickup => GoToPickupStep(e, s, now);
    case MoveCommand => MoveCommandStep(e, s, now);
    case Move => MoveStep(e, s, now);
    case Cancel => CancelBlind(s, now);
    case _ => MessageBlind(e, s, now, ev);
  }

  // ---- whole sequences ----

  lemma {:induction false} ExecInv(e: Env, s: Ctrl, evs: seq<Timed>)
    requires Sound(e.m) && Inv(e.m, s)
    ensures Inv(e.m, Exec(e, s, evs))
  {
    if evs != [] {
      var n := |evs| - 1;
      ExecInv(e, s, evs[..n]);
      StepInv(e, Exec(e, s, evs[..n]), evs[n].now, evs[n].ev);
    }
  }

  lemma {:induction false} ExecBlind(e: Env, s: Ctrl, t: Ctrl, evs: seq<Timed>)
    requires Sound(e.m) && Inv(e.m, s) && Inv(e.m, t) && Live(s) == Live(t)
    ensures Live(Exec(e, s, evs)) == Live(Exec(e, t, evs))
  {
    if evs != [] {
      var n := |evs| - 1;
      ExecBlind(e, s, t, evs[..n]);
      ExecInv(e, s, evs[..n]);
      ExecInv(e, t, evs[..n]);
      StepBlind(e, Exec(e, s, evs[..n]), evs[n].now, evs[n].ev);
      StepBlind(e, Exec(e, t, evs[..n]), evs[n].now, evs[n].ev);
    }
  }

  /** Two controllers between trips that agree on the phase record, the localisation and mode state,
      the init pose, the start position and the lane cache. Everything else may differ: the leg, the
      coordinates, the result and the ETA of the last query, the last route, the route mailbox, the
      leg flag, the timers and the past. */
  ghost predicate AgreeBetweenTrips(s: Ctrl, t: Ctrl) {
    && s.status.state == IDLE && s.status == t.status
    && s.inbox.locState == t.inbox.locState && s.inbox.modeAvailable == t.inbox.modeAvailable
    && s.initPose == t.initPose && s.start == t.start && s.cache == t.cache
  }

  function Fresh(s: Ctrl): Ctrl {
    s.(log := [])
  }

  /** From then on both send the same publications, callbacks, notifications and replies on every
      timed sequence of events. */
  lemma NoLeakBetweenTrips(e: Env, s: Ctrl, t: Ctrl, evs: seq<Timed>)
    requires Sound(e.m) && Inv(e.m, s) && Inv(e.m, t) && AgreeBetweenTrips(s, t)
    ensures Exec(e, Fresh(s), evs).log == Exec(e, Fresh(t), evs).log
    ensures Exec(e, Fresh(s), evs).status == Exec(e, Fresh(t), evs).status
  {
    SameCoreInv(e.m, s, Fresh(s));
    SameCoreInv(e.m, t, Fresh(t));
    ExecBlind(e, Fresh(s), Fresh(t), evs);
  }
}
