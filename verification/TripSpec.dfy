/** The trip state machine as a function on its state vector: one call per event handled on the
    strand. Times are milliseconds of the steady clock. */
module TripSpec {
  import opened Base
  import opened LaneSpec
  import opened Resolvers

  datatype TripState =
    | IDLE | INITIALIZING_IN_MAP
    | QUERY_PUBLISHING_INITIAL_POSE | QUERY_WAITING_LOCALISATION | QUERY_PUBLISHING_GOAL
    | QUERY_WAITING_ROUTE | QUERY_READING_ETA
    | ROUTES_READY | WAITING_FOR_PICKUP_START | PUBLISHING_INITIAL_POSE | WAITING_LOCALISATION
    | ENGAGING | DRIVING_TO_PICKUP | WAITING_FOR_MOVE | RUNNING | COMPLETED | CANCELLED | FAILED

  /** A lane id kept as text: empty, or the decimal text of an id. */
  datatype LaneText = Blank | Text(id: Id)

  datatype Status = Status(
    state: TripState,
    startId: LaneText, startPose: Pose, startGps: Gps,
    goalGps: Gps, goalId: LaneText, goalPose: Pose, goalDistance: real,
    currentGps: Gps,
    lastStateChange: int)

  const ZERO_POSE := Pose(0.0, 0.0, 0.0, 0.0, 0.0)

  const ORIGIN := Gps(0.0, 0.0)

  const INITIAL_STATUS := Status(IDLE, Blank, ZERO_POSE, ORIGIN, ORIGIN, Blank, ZERO_POSE, 0.0, ORIGIN, 0)

  datatype Leg = Pickup | Trip

  datatype LegEta = LegEta(success: bool, distance: real, seconds: real, startLane: LaneText, goalLane: LaneText)

  const NO_LEG := LegEta(false, 0.0, 0.0, Blank, Blank)

  datatype QueryError =
    | NoError
    | NotIdle(state: TripState)
    | NotLocalised
    | LocalisationTimeout(leg: Leg)
    | RouteTimeout(leg: Leg, startLane: LaneText, goalLane: LaneText)
    | NoOriginLane(leg: Leg)
    | NotReachable(destination: Option<Id>, origin: Id)

  datatype EtaQueryResult = EtaQueryResult(success: bool, pickupLeg: LegEta, tripLeg: LegEta, error: QueryError)

  const NO_RESULT := EtaQueryResult(false, NO_LEG, NO_LEG, NoError)

  /** The planner's route message, kept only by its primitives. */
  type Route = seq<Id>

  datatype HeldRoute = HeldRoute(route: Route, seconds: real, distance: real, goalGps: Gps, goalLane: Id)

  datatype LocState = LOC_UNINITIALIZED | LOC_INITIALIZING | LOC_INITIALIZED | LOC_UNKNOWN

  datatype RouteState = UNSET | SET | ARRIVED | CHANGING

  /** A query callback is known by the number of the request that carried it. */
  type Callback = nat

  datatype Output =
    | InitialPose(pose: Pose)
    | Goal(pose: Pose)
    | EngageAttempt(sent: bool)
    | Fire(cb: Callback, result: EtaQueryResult)
    | Notify(prev: TripState, next: TripState)
    | PickupArrived
    | DropoffArrived
    | Reply(ok: bool)

  datatype Timings = Timings(routeTimeout: int, locTimeout: int, etaSettle: int)

  const DEFAULT_TIMINGS := Timings(30000, 30000, 2000)

  datatype Env = Env(m: Resolver, t: Timings)

  /** The last message of each subscription. */
  datatype Inbox = Inbox(
    locState: Option<LocState>,
    routeState: Option<RouteState>,
    modeAvailable: Option<bool>,
    lastRoute: Option<Route>,
    routeReceived: bool)

  datatype Clock = Clock(lastPublish: int, enteredAt: int)

  /** The query being answered; what an earlier query left here is never cleared. */
  datatype Query = Query(
    active: bool, leg: Leg, start: Gps, goal: Gps, cb: Option<Callback>, result: EtaQueryResult,
    etaReceived: bool, etaDistance: real, etaSeconds: real)

  datatype Bank = Bank(pickup: Option<HeldRoute>, trip: Option<HeldRoute>)

  const EMPTY_BANK := Bank(None, None)

  /** Every field of the controller, the lane cache it shares, and the outputs so far. `fault`
      records that an exception has left a handler, which ends the process. */
  datatype Ctrl = Ctrl(
    status: Status,
    engagingForPickup: bool,
    inbox: Inbox,
    clock: Clock,
    initPose: Pose,
    query: Query,
    bank: Bank,
    cache: seq<LaneInfo>,
    start: Option<Pose>,
    fault: bool,
    log: seq<Output>)

  datatype Event =
    | Tick(pose: Option<Gps>, servicesReady: bool)
    | LocMessage(loc: LocState)
    | RouteStateMessage(route: RouteState)
    | ModeMessage(available: bool)
    | RouteMessage(msg: Route)
    | EtaMessage(distance: real, seconds: real)
    | EngageAccepted
    | QueryEta(start: Gps, goal: Gps, cb: Option<Callback>, pose: Option<Gps>)
    | StartTrip
    | GoToPickup
    | MoveCommand
    | Move
    | Cancel

  // ---- small steps ----

  function Emit(s: Ctrl, o: Output): Ctrl {
    s.(log := s.log + [o])
  }

  function TransitionTo(s: Ctrl, now: int, next: TripState): Ctrl {
    if s.status.state == next then s
    else
      s.(status := s.status.(state := next, lastStateChange := now), clock := Clock(0, now),
         log := s.log + [Notify(s.status.state, next)])
  }

  /** Empties the route-state mailbox. */
  function ClearRouteState(s: Ctrl): Ctrl {
    s.(inbox := s.inbox.(routeState := None))
  }

  function ClearRoute(s: Ctrl): Ctrl {
    s.(inbox := s.inbox.(routeState := None, routeReceived := false))
  }

  /** Answers the pending callback, if there is one. */
  function Answered(s: Ctrl, result: EtaQueryResult): seq<Output> {
    if s.query.cb.Some? then s.log + [Fire(s.query.cb.value, result)] else s.log
  }

  function FailQuery(s: Ctrl, now: int, reason: QueryError): Ctrl {
    var failed := s.query.result.(success := false, error := reason);
    var result := if s.query.cb.Some? then failed else s.query.result;
    TransitionTo(
      s.(query := s.query.(result := result, cb := None, active := false), bank := EMPTY_BANK, status := INITIAL_STATUS,
         inbox := s.inbox.(routeReceived := false), log := Answered(s, failed)),
      now, IDLE)
  }

  function StartLane(e: Env, s: Ctrl, from: Gps): Look {
    if s.query.leg.Pickup? then e.m.nearest(s.cache, from)
    else match s.status.goalId
      case Blank => Look(s.cache, Threw)
      case Text(id) => e.m.byId(s.cache, id)
  }

  function StartQueryLeg(e: Env, s: Ctrl, now: int, from: Gps, to: Gps): Ctrl {
    var l := StartLane(e, s, from);
    match l.answer
    case Threw => s.(cache := l.cache, fault := true)
    case Missing => FailQuery(s.(cache := l.cache), now, NoOriginLane(s.query.leg))
    case Found(a) => LegFrom(e, s.(cache := l.cache), now, a, to)
  }

  function LegFrom(e: Env, s: Ctrl, now: int, a: LaneInfo, to: Gps): Ctrl {
    var m := e.m.connected(s.cache, to, a.id);
    match m.answer
    case Threw => s.(cache := m.cache, fault := true)
    case Missing => FailUnreachable(e, s.(cache := m.cache), now, a.id, to)
    case Found(b) =>
      TransitionTo(s.(cache := m.cache, status := LegStatus(e.m, s.status, a, b, to)),
                   now, QUERY_PUBLISHING_INITIAL_POSE)
  }

  function Unreached(nearest: Answer, origin: Id): QueryError {
    NotReachable(if nearest.Found? then Some(nearest.info.id) else None, origin)
  }

  /** The error names the lane nearest to the destination, reachable or not. */
  function FailUnreachable(e: Env, s: Ctrl, now: int, origin: Id, to: Gps): Ctrl {
    var n := e.m.nearest(s.cache, to);
    FailQuery(s.(cache := n.cache), now,
              Unreached(n.answer, origin))
  }

  function LegStatus(m: Resolver, status: Status, a: LaneInfo, b: LaneInfo, to: Gps): Status {
    status.(startPose := PoseAt(a.local, a.orientation), startId := Text(a.id),
            goalPose := PoseAt(b.local, b.orientation), goalId := Text(b.id), goalGps := to,
            goalDistance := m.snap(b.local, to))
  }

  function LegResult(s: Ctrl): LegEta {
    LegEta(true, s.query.etaDistance, s.query.etaSeconds, s.status.startId, s.status.goalId)
  }

  function Held(s: Ctrl, goalGps: Gps, goalLane: Id): HeldRoute {
    HeldRoute(if s.inbox.lastRoute.Some? then s.inbox.lastRoute.value else [],
              s.query.etaSeconds, s.query.etaDistance, goalGps, goalLane)
  }

  function FinishQueryLeg(e: Env, s: Ctrl, now: int): Ctrl {
    if s.query.leg.Pickup? then FinishPickupLeg(e, s, now) else FinishTripLeg(s, now)
  }

  function FinishPickupLeg(e: Env, s: Ctrl, now: int): Ctrl {
    var result := s.query.result.(pickupLeg := LegResult(s));
    if s.status.goalId.Blank? then s.(query := s.query.(result := result), fault := true)
    else
      StartQueryLeg(
        e,
        ClearRoute(s.(query := s.query.(result := result, leg := Trip),
                      bank := s.bank.(pickup := Some(Held(s, s.query.start, s.status.goalId.id))))),
        now, s.query.start, s.query.goal)
  }

  function FinishTripLeg(s: Ctrl, now: int): Ctrl {
    var result := s.query.result.(tripLeg := LegResult(s), success := true);
    TransitionTo(
      s.(query := s.query.(result := result, active := false, cb := None),
         bank := s.bank.(trip := Some(Held(s, s.query.goal, 0))), status := INITIAL_STATUS, log := Answered(s, result)),
      now, ROUTES_READY)
  }

  // ---- commands: the new state and the returned flag ----

  /** initializeInMap, the first thing the strand runs. */
  function InitializeInMap(s: Ctrl, now: int): Ctrl {
    match s.start
    case None => s
    case Some(p) => TransitionTo(Emit(s.(initPose := p), InitialPose(p)), now, INITIALIZING_IN_MAP)
  }

  function Reject(s: Ctrl, cb: Option<Callback>, reason: QueryError): Ctrl {
    if cb.Some? then Emit(s, Fire(cb.value, NO_RESULT.(error := reason))) else s
  }

  /** The query record of a new request. */
  function Asked(q: Query, start: Gps, goal: Gps, cb: Option<Callback>): Query {
    q.(active := true, leg := Pickup, start := start, goal := goal, cb := cb, result := NO_RESULT)
  }

  function DoQueryEta(e: Env, s: Ctrl, now: int, start: Gps, goal: Gps,
                      cb: Option<Callback>, pose: Option<Gps>): (Ctrl, bool) {
    if s.status.state != IDLE then (Reject(s, cb, NotIdle(s.status.state)), false)
    else if pose.None? then (Reject(s, cb, NotLocalised), false)
    else
      (StartQueryLeg(
         e,
         s.(query := Asked(s.query, start, goal, cb),
            bank := EMPTY_BANK),
         now, pose.value, start),
       true)
  }

  function DoGoToPickup(s: Ctrl, now: int): (Ctrl, bool) {
    if s.status.state != WAITING_FOR_PICKUP_START then (s, false)
    else (TransitionTo(ClearRoute(s), now, PUBLISHING_INITIAL_POSE), true)
  }

  /** The leg flag and the mailbox are reset before any guard, even when the command is refused. */
  function DoStartTrip(e: Env, s0: Ctrl, now: int): (Ctrl, bool) {
    var s := s0.(engagingForPickup := true, inbox := s0.inbox.(routeState := None));
    if s.bank.pickup.None? || s.bank.trip.None? then (s, false)
    else if s.status.state != ROUTES_READY && s.status.state != IDLE then (s, false)
    else AcceptTrip(e, s, now, s.bank.pickup.value)
  }

  function AcceptTrip(e: Env, s: Ctrl, now: int, held: HeldRoute): (Ctrl, bool) {
    var l := e.m.byId(s.cache, held.goalLane);
    match l.answer
    case Threw => (s.(cache := l.cache, fault := true), false)
    case Missing => (TransitionTo(s.(cache := l.cache), now, FAILED), false)
    case Found(a) =>
      var status := s.status.(startId := Text(a.id), startPose := PoseAt(a.local, a.orientation),
                              startGps := held.goalGps);
      (TransitionTo(s.(cache := l.cache, status := status), now, WAITING_FOR_PICKUP_START), true)
  }

  function DoMove(e: Env, s: Ctrl, now: int): (Ctrl, bool) {
    if s.status.state != WAITING_FOR_MOVE then (s, false)
    else if s.bank.trip.None? then (TransitionTo(s, now, FAILED), false)
    else if s.status.startId.Blank? then (s.(fault := true), false)
    else DriveTrip(e, s, now, s.status.startId.id, s.bank.trip.value)
  }

  function DriveTrip(e: Env, s: Ctrl, now: int, from: Id, held: HeldRoute): (Ctrl, bool) {
    var m := e.m.connected(s.cache, held.goalGps, from);
    match m.answer
    case Threw => (s.(cache := m.cache, fault := true), false)
    case Missing => (TransitionTo(s.(cache := m.cache), now, FAILED), false)
    case Found(b) =>
      (EngageTo(s.(cache := m.cache), now, b, held), true)
  }

  function EngageTo(s: Ctrl, now: int, b: LaneInfo, held: HeldRoute): Ctrl {
    var p := PoseAt(b.local, b.orientation);
    var status := s.status.(goalId := Text(b.id), goalPose := p, goalGps := held.goalGps,
                            goalDistance := held.distance);
    TransitionTo(
      s.(status := status, inbox := s.inbox.(routeState := None), engagingForPickup := false, log := s.log + [Goal(p)]),
      now, ENGAGING)
  }

  function DoMoveCommand(e: Env, s: Ctrl, now: int): (Ctrl, bool) {
    if s.status.state == WAITING_FOR_PICKUP_START then DoGoToPickup(s, now)
    else if s.status.state == WAITING_FOR_MOVE then DoMove(e, s, now)
    else (s, false)
  }

  function DoCancel(s: Ctrl, now: int): Ctrl {
    TransitionTo(
      s.(query := s.query.(active := false, cb := None), bank := EMPTY_BANK, status := INITIAL_STATUS,
         inbox := s.inbox.(routeState := None, routeReceived := false), engagingForPickup := false,
         log := if s.start.Some? then s.log + [InitialPose(s.start.value)] else s.log),
      now, IDLE)
  }

  // ---- the tick ----

  predicate Localised(s: Ctrl) {
    s.inbox.locState == Some(LOC_INITIALIZED)
  }

  /** Publishes again when the last publication is old enough. */
  function Republish(s: Ctrl, now: int, period: int, o: Output): Ctrl {
    if now - s.clock.lastPublish >= period then s.(log := s.log + [o], clock := s.clock.(lastPublish := now)) else s
  }

  predicate EngageSent(s: Ctrl, servicesReady: bool) {
    servicesReady && s.inbox.modeAvailable != Some(false)
  }

  function TickWaitLocalisation(e: Env, s: Ctrl, now: int): Ctrl {
    if Localised(s) then TransitionTo(s, now, QUERY_PUBLISHING_GOAL)
    else
      var s1 := Republish(s, now, 1000, InitialPose(s.status.startPose));
      if now - s.clock.enteredAt >= e.t.locTimeout then FailQuery(s1, now, LocalisationTimeout(s.query.leg)) else s1
  }

  function TickPublishGoal(s: Ctrl, now: int): Ctrl {
    TransitionTo(
      s.(inbox := s.inbox.(routeState := None, routeReceived := false), log := s.log + [Goal(s.status.goalPose)]),
      now, QUERY_WAITING_ROUTE)
  }

  function TickWaitRoute(e: Env, s: Ctrl, now: int): Ctrl {
    if s.inbox.routeState == Some(SET)
    then TransitionTo(s.(query := s.query.(etaReceived := false)), now, QUERY_READING_ETA)
    else
      var s1 := Republish(s, now, 2000, Goal(s.status.goalPose));
      if now - s.clock.enteredAt >= e.t.routeTimeout
      then FailQuery(s1, now, RouteTimeout(s.query.leg, s.status.startId, s.status.goalId)) else s1
  }

  function TickReadEta(e: Env, s: Ctrl, now: int): Ctrl {
    if s.query.etaReceived then FinishQueryLeg(e, s, now)
    else if now - s.clock.enteredAt >= e.t.etaSettle then FinishQueryLeg(e, WithoutEta(s), now)
    else s
  }

  /** No ETA arrived in time: zero is quoted. */
  function WithoutEta(s: Ctrl): Ctrl {
    s.(query := s.query.(etaDistance := 0.0, etaSeconds := 0.0))
  }

  /** The steps of a query, in the order in which they are taken. */
  function TickQuery(e: Env, s: Ctrl, now: int): Ctrl {
    match s.status.state
    case QUERY_PUBLISHING_INITIAL_POSE =>
      TransitionTo(Emit(s, InitialPose(s.status.startPose)), now, QUERY_WAITING_LOCALISATION)
    case QUERY_WAITING_LOCALISATION => TickWaitLocalisation(e, s, now)
    case QUERY_PUBLISHING_GOAL => TickPublishGoal(s, now)
    case QUERY_WAITING_ROUTE => TickWaitRoute(e, s, now)
    case QUERY_READING_ETA => TickReadEta(e, s, now)
    case _ => s
  }

  /** Engaging and the two drives. */
  function TickDrive(s: Ctrl, now: int, servicesReady: bool): Ctrl {
    match s.status.state
    case ENGAGING =>
      Republish(s, now, 2000, EngageAttempt(EngageSent(s, servicesReady)))
    case DRIVING_TO_PICKUP =>
      if s.inbox.routeState == Some(ARRIVED)
      then TransitionTo(ClearRouteState(Emit(s, PickupArrived)), now, WAITING_FOR_MOVE) else s
    case RUNNING =>
      if s.inbox.routeState == Some(ARRIVED)
      then TransitionTo(ClearRouteState(Emit(s, DropoffArrived)), now, COMPLETED) else s
    case _ => s
  }

  function DoTick(e: Env, s: Ctrl, now: int, servicesReady: bool): Ctrl {
    match s.status.state
    case INITIALIZING_IN_MAP =>
      if !Localised(s) then Republish(s, now, 1000, InitialPose(s.initPose))
      else TransitionTo(s, now, IDLE)
    case PUBLISHING_INITIAL_POSE =>
      TransitionTo(Emit(s, InitialPose(s.initPose)), now, WAITING_LOCALISATION)
    case WAITING_LOCALISATION =>
      if !Localised(s) then Republish(s, now, 1000, InitialPose(s.initPose))
      else TransitionTo(Emit(s, Goal(s.status.startPose)), now, ENGAGING)
    case ENGAGING | DRIVING_TO_PICKUP | RUNNING => TickDrive(s, now, servicesReady)
    case _ => TickQuery(e, s, now)
  }

  function SetCurrentGps(s: Ctrl, pose: Option<Gps>): Ctrl {
    if pose.Some? then s.(status := s.status.(currentGps := pose.value)) else s
  }

  /** The closure an accepted engage request posts back to the strand. */
  function DoEngageAccepted(s: Ctrl, now: int): Ctrl {
    if s.status.state != ENGAGING then s
    else TransitionTo(s, now, if s.engagingForPickup then DRIVING_TO_PICKUP else RUNNING)
  }

  function InjectEta(s: Ctrl, distance: real, seconds: real): Ctrl {
    if s.status.state != QUERY_READING_ETA then s
    else s.(query := s.query.(etaDistance := distance, etaSeconds := seconds, etaReceived := true))
  }

  // ---- one strand step ----

  function Replied(r: (Ctrl, bool)): Ctrl {
    if r.0.fault then r.0 else Emit(r.0, Reply(r.1))
  }

  function Deliver(inbox: Inbox, ev: Event): Inbox {
    match ev
    case LocMessage(loc) => inbox.(locState := Some(loc))
    case RouteStateMessage(route) => inbox.(routeState := Some(route))
    case ModeMessage(available) => inbox.(modeAvailable := Some(available))
    case RouteMessage(msg) => inbox.(lastRoute := Some(msg), routeReceived := true)
    case _ => inbox
  }

  function Step(e: Env, s: Ctrl, now: int, ev: Event): Ctrl {
    if s.fault then s
    else match ev
      case Tick(pose, servicesReady) => DoTick(e, SetCurrentGps(s, pose), now, servicesReady)
      case EtaMessage(distance, seconds) => InjectEta(s, distance, seconds)
      case EngageAccepted => DoEngageAccepted(s, now)
      case QueryEta(start, goal, cb, pose) => DoQueryEta(e, s, now, start, goal, cb, pose).0
      case StartTrip => Replied(DoStartTrip(e, s, now))
      case GoToPickup => Replied(DoGoToPickup(s, now))
      case MoveCommand => Replied(DoMoveCommand(e, s, now))
      case Move => Replied(DoMove(e, s, now))
      case Cancel => DoCancel(s, now)
      case _ => s.(inbox := Deliver(s.inbox, ev))
  }

  /** The map as it is when the controller is built: the start position, if configured, is resolved. */
  function BootMap(m: Resolver, startGps: Option<Gps>): (seq<LaneInfo>, Option<Pose>) {
    match startGps
    case None => ([], None)
    case Some(gps) =>
      var look := m.nearest([], gps);
      (look.cache,
       Some(match look.answer
            case Found(info) => PoseAt(info.local, info.orientation)
            case _ => PoseAt(m.raw(gps), Orientation(0.0, 0.0, 0.0))))
  }

  const INITIAL_INBOX := Inbox(None, None, None, None, false)

  const INITIAL_QUERY := Query(false, Pickup, ORIGIN, ORIGIN, None, NO_RESULT, false, 0.0, 0.0)

  function Constructed(cache: seq<LaneInfo>, start: Option<Pose>): Ctrl {
    Ctrl(INITIAL_STATUS, true, INITIAL_INBOX, Clock(0, 0), Pose(0.0, 0.0, 0.0, 0.0, 1.0), INITIAL_QUERY,
         EMPTY_BANK, cache, start, false, [])
  }

  function Boot(m: Resolver, startGps: Option<Gps>, now: int): Ctrl {
    var (cache, start) := BootMap(m, startGps);
    InitializeInMap(Constructed(cache, start), now)
  }
}
