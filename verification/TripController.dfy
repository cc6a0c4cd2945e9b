/** The trip controller as it runs: an object whose methods update its fields, publish, and call the
    shared lane resolver. Each method is proved to do exactly what TripSpec says. */
module TripControllers {
  import opened Base
  import opened LaneSpec
  import opened LaneletMaps
  import opened Resolvers
  import opened TripSpec

  class TripController {
    const laneMap: LaneletMap
    const t: Timings
    ghost const env: Env

    var status: Status
    var engagingForPickup: bool
    var inbox: Inbox
    var clock: Clock
    var initPose: Pose
    var query: Query
    var bank: Bank
    var fault: bool
    var log: seq<Output>

    ghost predicate Valid()
      reads this, laneMap, laneMap.buffer
    {
      laneMap.Valid() && env == Env(Lanes(laneMap.w), t)
    }

    /** The state vector. */
    ghost function View(): Ctrl
      reads this, laneMap, laneMap.buffer
    {
      Ctrl(status, engagingForPickup, inbox, clock, initPose, query, bank,
           laneMap.Cache(), laneMap.StartPose(), fault, log)
    }

    constructor (laneMap: LaneletMap, t: Timings)
      requires laneMap.Valid()
      ensures Valid() && this.laneMap == laneMap && this.t == t
      ensures View() == Constructed(laneMap.Cache(), laneMap.StartPose())
    {
      this.laneMap, this.t, env := laneMap, t, Env(Lanes(laneMap.w), t);
      status, engagingForPickup, inbox, clock := INITIAL_STATUS, true, INITIAL_INBOX, Clock(0, 0);
      initPose, query, bank, fault, log := Pose(0.0, 0.0, 0.0, 0.0, 1.0), INITIAL_QUERY, EMPTY_BANK, false, [];
    }

    method Publish(o: Output)
      modifies this`log
      ensures log == old(log) + [o]
    {
      log := log + [o];
    }

    method ChangeState(now: int, next: TripState)
      modifies this`status, this`clock, this`log
      ensures if old(status.state) == next
        then status == old(status) && clock == old(clock) && log == old(log)
        else && status == old(status).(state := next, lastStateChange := now) && clock == Clock(0, now)
             && log == old(log) + [Notify(old(status.state), next)]
    {
      var prev := status.state;
      if prev == next {
        return;
      }
      status := status.(state := next, lastStateChange := now);
      clock := Clock(0, now);
      Publish(Notify(prev, next));
    }

    method Fail(now: int, reason: QueryError)
      modifies this
      ensures View() == FailQuery(old(View()), now, reason)
    {
      if query.cb.Some? {
        query := query.(result := query.result.(success := false, error := reason));
        Publish(Fire(query.cb.value, query.result));
        query := query.(cb := None);
      }
      query := query.(active := false);
      bank := EMPTY_BANK;
      status := INITIAL_STATUS;
      inbox := inbox.(routeReceived := false);
      ChangeState(now, IDLE);
    }

    method ResolveStart(from: Gps) returns (h: Handle)
      requires Valid()
      modifies laneMap`buffer, laneMap`size, laneMap.buffer
      ensures Valid() && laneMap.buffer == old(laneMap.buffer) && old(laneMap.Cache()) <= laneMap.Cache()
      ensures var l := StartLane(env, old(View()), from);
        laneMap.Cache() == l.cache && Denotes(h, laneMap.buffer, l.cache, l.answer)
    {
      if query.leg == Pickup {
        h := laneMap.FindNearestLane(from);
      } else if status.goalId == Blank {
        h := Thrown;
      } else {
        h := laneMap.GetLaneById(status.goalId.id);
      }
    }

    method SetLeg(now: int, a: LaneInfo, b: LaneInfo, to: Gps)
      requires Valid()
      modifies this`status, this`clock, this`log
      ensures View() ==
        TransitionTo(old(View()).(status := LegStatus(env.m, old(status), a, b, to)),
                     now, QUERY_PUBLISHING_INITIAL_POSE)
    {
      status := status.(startPose := PoseAt(a.local, a.orientation), startId := Text(a.id),
                        goalPose := PoseAt(b.local, b.orientation), goalId := Text(b.id), goalGps := to,
                        goalDistance := SnapDistance(laneMap.w, b.local, to));
      ChangeState(now, QUERY_PUBLISHING_INITIAL_POSE);
    }

    method Unreachable(now: int, origin: Id, to: Gps)
      requires Valid()
      modifies this, laneMap`buffer, laneMap`size, laneMap.buffer
      ensures Valid() && laneMap.buffer == old(laneMap.buffer)
      ensures View() == FailUnreachable(env, old(View()), now, origin, to)
    {
      var nearest := laneMap.FindNearestLane(to);
      Fail(now, NotReachable(if nearest.At? then Some(nearest.buf[nearest.idx].id) else None, origin));
    }

    /** Resolves the goal. The first lane pointer is still used after the second lookup. */
    method LegToGoal(now: int, fromLane: Handle, ghost a: LaneInfo, to: Gps)
      requires Valid() && Denotes(fromLane, laneMap.buffer, laneMap.Cache(), Found(a))
      modifies this, laneMap`buffer, laneMap`size, laneMap.buffer
      ensures Valid() && laneMap.buffer == old(laneMap.buffer)
      ensures View() == LegFrom(env, old(View()), now, a, to)
    {
      ghost var c := laneMap.Cache();
      var toLane := laneMap.FindNearestConnectedLane(to, fromLane.buf[fromLane.idx].id, true);
      ghost var d := laneMap.Cache();
      StillDenotes(fromLane, laneMap.buffer, c, d, Found(a));
      if toLane == Thrown {
        fault := true;
        return;
      }
      if toLane == Null {
        Unreachable(now, fromLane.buf[fromLane.idx].id, to);
        return;
      }
      SetLeg(now, fromLane.buf[fromLane.idx], toLane.buf[toLane.idx], to);
    }

    method StartLeg(now: int, from: Gps, to: Gps)
      requires Valid()
      modifies this, laneMap`buffer, laneMap`size, laneMap.buffer
      ensures Valid() && laneMap.buffer == old(laneMap.buffer)
      ensures View() == StartQueryLeg(env, old(View()), now, from, to)
    {
      ghost var l := StartLane(env, View(), from);
      var fromLane := ResolveStart(from);
      match fromLane {
        case Thrown => fault := true;
        case Null => Fail(now, NoOriginLane(query.leg));
        case At(_, _) => LegToGoal(now, fromLane, l.answer.info, to);
      }
    }

    /** Banks the pickup leg and starts the trip leg. */
    method FinishPickup(now: int)
      requires Valid()
      modifies this, laneMap`buffer, laneMap`size, laneMap.buffer
      ensures Valid() && laneMap.buffer == old(laneMap.buffer)
      ensures View() == FinishPickupLeg(env, old(View()), now)
    {
      var legEta := LegEta(true, query.etaDistance, query.etaSeconds, status.startId, status.goalId);
      query := query.(result := query.result.(pickupLeg := legEta));
      if status.goalId == Blank {
        fault := true;
        return;
      }
      var route := if inbox.lastRoute.Some? then inbox.lastRoute.value else [];
      bank := bank.(pickup := Some(
                     HeldRoute(route, query.etaSeconds, query.etaDistance, query.start, status.goalId.id)));
      query := query.(leg := Trip);
      inbox := inbox.(routeState := None, routeReceived := false);
      StartLeg(now, query.start, query.goal);
    }

    /** Banks the trip leg and answers the query. */
    method FinishTrip(now: int)
      modifies this
      ensures View() == FinishTripLeg(old(View()), now)
    {
      var legEta := LegEta(true, query.etaDistance, query.etaSeconds, status.startId, status.goalId);
      var route := if inbox.lastRoute.Some? then inbox.lastRoute.value else [];
      bank := bank.(trip := Some(HeldRoute(route, query.etaSeconds, query.etaDistance, query.goal, 0)));
      query := query.(result := query.result.(tripLeg := legEta, success := true), active := false);
      if query.cb.Some? {
        Publish(Fire(query.cb.value, query.result));
        query := query.(cb := None);
      }
      status := INITIAL_STATUS;
      ChangeState(now, ROUTES_READY);
    }

    method FinishLeg(now: int)
      requires Valid()
      modifies this, laneMap`buffer, laneMap`size, laneMap.buffer
      ensures Valid() && laneMap.buffer == old(laneMap.buffer)
      ensures View() == FinishQueryLeg(env, old(View()), now)
    {
      if query.leg == Pickup {
        FinishPickup(now);
      } else {
        FinishTrip(now);
      }
    }

    method InitializeInMap(now: int)
      modifies this
      ensures View() == TripSpec.InitializeInMap(old(View()), now)
    {
      if laneMap.defaultStart.None? {
        return;
      }
      var fixedStart := laneMap.defaultStart.value;
      initPose := PoseAt(fixedStart.local, fixedStart.orientation);
      Publish(InitialPose(initPose));
      ChangeState(now, INITIALIZING_IN_MAP);
    }

    method QueryEta(now: int, start: Gps, goal: Gps, cb: Option<Callback>, pose: Option<Gps>) returns (ok: bool)
      requires Valid()
      modifies this, laneMap`buffer, laneMap`size, laneMap.buffer
      ensures Valid() && laneMap.buffer == old(laneMap.buffer)
      ensures (View(), ok) == DoQueryEta(env, old(View()), now, start, goal, cb, pose)
    {
      if status.state != IDLE {
        if cb.Some? {
          Publish(Fire(cb.value, NO_RESULT.(error := NotIdle(status.state))));
        }
        return false;
      }
      if pose.None? {
        if cb.Some? {
          Publish(Fire(cb.value, NO_RESULT.(error := NotLocalised)));
        }
        return false;
      }
      query := query.(active := true, leg := Pickup, start := start, goal := goal, cb := cb, result := NO_RESULT);
      bank := EMPTY_BANK;
      StartLeg(now, pose.value, start);
      return true;
    }

    method GoToPickup(now: int) returns (ok: bool)
      modifies this
      ensures (View(), ok) == DoGoToPickup(old(View()), now)
    {
      if status.state != WAITING_FOR_PICKUP_START {
        return false;
      }
      inbox := inbox.(routeState := None, routeReceived := false);
      ChangeState(now, PUBLISHING_INITIAL_POSE);
      return true;
    }

    method StartTrip(now: int) returns (ok: bool)
      requires Valid()
      modifies this, laneMap`buffer, laneMap`size, laneMap.buffer
      ensures Valid() && laneMap.buffer == old(laneMap.buffer)
      ensures (View(), ok) == DoStartTrip(env, old(View()), now)
    {
      engagingForPickup := true;
      inbox := inbox.(routeState := None);
      if bank.pickup.None? || bank.trip.None? {
        return false;
      }
      if status.state != ROUTES_READY && status.state != IDLE {
        return false;
      }
      ok := TakePickupLane(now);
    }

    method SetTripStart(now: int, a: LaneInfo, gps: Gps)
      modifies this`status, this`clock, this`log
      ensures var s := old(status).(startId := Text(a.id), startPose := PoseAt(a.local, a.orientation),
                                    startGps := gps);
        View() == TransitionTo(old(View()).(status := s), now, WAITING_FOR_PICKUP_START)
    {
      status := status.(startId := Text(a.id), startPose := PoseAt(a.local, a.orientation), startGps := gps);
      ChangeState(now, WAITING_FOR_PICKUP_START);
    }

    method TakePickupLane(now: int) returns (ok: bool)
      requires Valid() && bank.pickup.Some?
      modifies this, laneMap`buffer, laneMap`size, laneMap.buffer
      ensures Valid() && laneMap.buffer == old(laneMap.buffer)
      ensures (View(), ok) == AcceptTrip(env, old(View()), now, old(bank.pickup.value))
    {
      var startLane := laneMap.GetLaneById(bank.pickup.value.goalLane);
      match startLane {
        case Thrown =>
          fault := true;
          return false;
        case Null =>
          ChangeState(now, FAILED);
          return false;
        case At(buf, idx) =>
          SetTripStart(now, buf[idx], bank.pickup.value.goalGps);
          return true;
      }
    }

    method Move(now: int) returns (ok: bool)
      requires Valid()
      modifies this, laneMap`buffer, laneMap`size, laneMap.buffer
      ensures Valid() && laneMap.buffer == old(laneMap.buffer)
      ensures (View(), ok) == DoMove(env, old(View()), now)
    {
      if status.state != WAITING_FOR_MOVE {
        return false;
      }
      if bank.trip.None? {
        ChangeState(now, FAILED);
        return false;
      }
      if status.startId == Blank {
        fault := true;
        return false;
      }
      ok := TakeTripLane(now);
    }

    method TakeTripLane(now: int) returns (ok: bool)
      requires Valid() && bank.trip.Some? && status.startId.Text?
      modifies this, laneMap`buffer, laneMap`size, laneMap.buffer
      ensures Valid() && laneMap.buffer == old(laneMap.buffer)
      ensures (View(), ok) == DriveTrip(env, old(View()), now, old(status.startId.id), old(bank.trip.value))
    {
      var goalLane := laneMap.FindNearestConnectedLane(bank.trip.value.goalGps, status.startId.id, true);
      match goalLane {
        case Thrown =>
          fault := true;
          return false;
        case Null =>
          ChangeState(now, FAILED);
          return false;
        case At(buf, idx) =>
          EngageToGoal(now, buf[idx]);
          return true;
      }
    }

    method EngageToGoal(now: int, b: LaneInfo)
      requires bank.trip.Some?
      modifies this
      ensures View() == EngageTo(old(View()), now, b, old(bank.trip.value))
    {
      status := status.(goalId := Text(b.id), goalPose := PoseAt(b.local, b.orientation),
                        goalGps := bank.trip.value.goalGps, goalDistance := bank.trip.value.distance);
      inbox := inbox.(routeState := None);
      Publish(Goal(status.goalPose));
      engagingForPickup := false;
      ChangeState(now, ENGAGING);
    }

    method HandleMoveCommand(now: int) returns (ok: bool)
      requires Valid()
      modifies this, laneMap`buffer, laneMap`size, laneMap.buffer
      ensures Valid() && laneMap.buffer == old(laneMap.buffer)
      ensures (View(), ok) == DoMoveCommand(env, old(View()), now)
    {
      if status.state == WAITING_FOR_PICKUP_START {
        ok := GoToPickup(now);
      } else if status.state == WAITING_FOR_MOVE {
        ok := Move(now);
      } else {
        ok := false;
      }
    }

    method CancelTrip(now: int)
      modifies this
      ensures View() == DoCancel(old(View()), now)
    {
      query := query.(active := false, cb := None);
      bank := EMPTY_BANK;
      status := INITIAL_STATUS;
      inbox := inbox.(routeReceived := false, routeState := None);
      engagingForPickup := false;
      if laneMap.defaultStart.Some? {
        var fixedStart := laneMap.defaultStart.value;
        Publish(InitialPose(PoseAt(fixedStart.local, fixedStart.orientation)));
      }
      ChangeState(now, IDLE);
    }

    method PublishAgain(now: int, period: int, o: Output)
      modifies this`log, this`clock
      ensures if now - old(clock.lastPublish) >= period
        then log == old(log) + [o] && clock == old(clock).(lastPublish := now)
        else log == old(log) && clock == old(clock)
    {
      if now - clock.lastPublish >= period {
        Publish(o);
        clock := clock.(lastPublish := now);
      }
    }

    method WaitLocalisation(now: int)
      requires Valid()
      modifies this
      ensures View() == TickWaitLocalisation(env, old(View()), now)
    {
      if inbox.locState == Some(LOC_INITIALIZED) {
        ChangeState(now, QUERY_PUBLISHING_GOAL);
      } else {
        PublishAgain(now, 1000, InitialPose(status.startPose));
        if now - clock.enteredAt >= t.locTimeout {
          Fail(now, LocalisationTimeout(query.leg));
        }
      }
    }

    method PublishLegGoal(now: int)
      modifies this
      ensures View() == TickPublishGoal(old(View()), now)
    {
      Publish(Goal(status.goalPose));
      inbox := inbox.(routeReceived := false, routeState := None);
      ChangeState(now, QUERY_WAITING_ROUTE);
    }

    method WaitRoute(now: int)
      requires Valid()
      modifies this
      ensures View() == TickWaitRoute(env, old(View()), now)
    {
      if inbox.routeState == Some(SET) {
        query := query.(etaReceived := false);
        ChangeState(now, QUERY_READING_ETA);
      } else {
        PublishAgain(now, 2000, Goal(status.goalPose));
        if now - clock.enteredAt >= t.routeTimeout {
          Fail(now, RouteTimeout(query.leg, status.startId, status.goalId));
        }
      }
    }

    method ReadEta(now: int)
      requires Valid()
      modifies this, laneMap`buffer, laneMap`size, laneMap.buffer
      ensures Valid() && laneMap.buffer == old(laneMap.buffer)
      ensures View() == TickReadEta(env, old(View()), now)
    {
      if query.etaReceived {
        FinishLeg(now);
      } else if now - clock.enteredAt >= t.etaSettle {
        query := query.(etaDistance := 0.0, etaSeconds := 0.0);
        FinishLeg(now);
      }
    }

    /** The tick while a query is being answered. */
    method TickQuery(now: int)
      requires Valid()
      modifies this, laneMap`buffer, laneMap`size, laneMap.buffer
      ensures Valid() && laneMap.buffer == old(laneMap.buffer)
      ensures View() == TripSpec.TickQuery(env, old(View()), now)
    {
      match status.state {
        case QUERY_PUBLISHING_INITIAL_POSE =>
          Publish(InitialPose(status.startPose));
          ChangeState(now, QUERY_WAITING_LOCALISATION);
        case QUERY_WAITING_LOCALISATION =>
          WaitLocalisation(now);
        case QUERY_PUBLISHING_GOAL =>
          PublishLegGoal(now);
        case QUERY_WAITING_ROUTE =>
          WaitRoute(now);
        case QUERY_READING_ETA =>
          ReadEta(now);
        case _ =>
      }
    }

    /** The tick while engaging or driving. */
    method TickDrive(now: int, servicesReady: bool)
      modifies this
      ensures View() == TripSpec.TickDrive(old(View()), now, servicesReady)
    {
      match status.state {
        case ENGAGING =>
          PublishAgain(now, 2000, EngageAttempt(servicesReady && inbox.modeAvailable != Some(false)));
        case DRIVING_TO_PICKUP =>
          if inbox.routeState == Some(ARRIVED) {
            Publish(PickupArrived);
            inbox := inbox.(routeState := None);
            ChangeState(now, WAITING_FOR_MOVE);
          }
        case RUNNING =>
          if inbox.routeState == Some(ARRIVED) {
            Publish(DropoffArrived);
            inbox := inbox.(routeState := None);
            ChangeState(now, COMPLETED);
          }
        case _ =>
      }
    }

    /** Initialising, and preparing the drive to the pickup. */
    method TickSetUp(now: int, ghost servicesReady: bool)
      requires status.state == INITIALIZING_IN_MAP || status.state == PUBLISHING_INITIAL_POSE
            || status.state == WAITING_LOCALISATION
      modifies this`status, this`clock, this`log
      ensures View() == DoTick(env, old(View()), now, servicesReady)
    {
      var localised := inbox.locState == Some(LOC_INITIALIZED);
      if status.state == PUBLISHING_INITIAL_POSE {
        Publish(InitialPose(initPose));
        ChangeState(now, WAITING_LOCALISATION);
      } else if !localised {
        PublishAgain(now, 1000, InitialPose(initPose));
      } else if status.state == INITIALIZING_IN_MAP {
        ChangeState(now, IDLE);
      } else {
        Publish(Goal(status.startPose));
        ChangeState(now, ENGAGING);
      }
    }

    method OnTick(now: int, servicesReady: bool)
      requires Valid()
      modifies this, laneMap`buffer, laneMap`size, laneMap.buffer
      ensures Valid() && laneMap.buffer == old(laneMap.buffer)
      ensures View() == DoTick(env, old(View()), now, servicesReady)
    {
      match status.state {
        case INITIALIZING_IN_MAP | PUBLISHING_INITIAL_POSE | WAITING_LOCALISATION =>
          TickSetUp(now, servicesReady);
        case ENGAGING | DRIVING_TO_PICKUP | RUNNING =>
          TickDrive(now, servicesReady);
        case _ =>
          TickQuery(now);
      }
    }

    method ReplyTo(ok: bool)
      modifies this`log
      ensures View() == Replied((old(View()), ok))
    {
      if !fault {
        Publish(Reply(ok));
      }
    }

    /** Subscriptions and the engage reply. */
    method HandleMessage(now: int, ev: Event)
      requires Valid() && !fault
      requires !ev.Tick? && !ev.QueryEta? && !ev.StartTrip? && !ev.GoToPickup? && !ev.MoveCommand? && !ev.Move?
      requires !ev.Cancel?
      modifies this
      ensures Valid() && View() == Step(env, old(View()), now, ev)
    {
      match ev {
        case LocMessage(loc) => inbox := inbox.(locState := Some(loc));
        case RouteStateMessage(route) => inbox := inbox.(routeState := Some(route));
        case ModeMessage(available) => inbox := inbox.(modeAvailable := Some(available));
        case RouteMessage(msg) => inbox := inbox.(lastRoute := Some(msg), routeReceived := true);
        case EtaMessage(distance, seconds) =>
          if status.state == QUERY_READING_ETA {
            query := query.(etaDistance := distance, etaSeconds := seconds, etaReceived := true);
          }
        case EngageAccepted =>
          if status.state == ENGAGING {
            if engagingForPickup {
              ChangeState(now, DRIVING_TO_PICKUP);
            } else {
              ChangeState(now, RUNNING);
            }
          }
      }
    }

    /** Commands whose flag is passed back to the caller. */
    method HandleCommand(now: int, ev: Event)
      requires Valid() && !fault && (ev.StartTrip? || ev.GoToPickup? || ev.MoveCommand? || ev.Move?)
      modifies this, laneMap`buffer, laneMap`size, laneMap.buffer
      ensures Valid() && laneMap.buffer == old(laneMap.buffer)
      ensures View() == Step(env, old(View()), now, ev)
    {
      var ok;
      match ev {
        case StartTrip => ok := StartTrip(now);
        case GoToPickup => ok := GoToPickup(now);
        case MoveCommand => ok := HandleMoveCommand(now);
        case Move => ok := Move(now);
      }
      ReplyTo(ok);
    }

    /** The timer: the vehicle's position, if it is known, then the tick. */
    method OnTickTimer(now: int, pose: Option<Gps>, servicesReady: bool)
      requires Valid() && !fault
      modifies this, laneMap`buffer, laneMap`size, laneMap.buffer
      ensures Valid() && laneMap.buffer == old(laneMap.buffer)
      ensures View() == Step(env, old(View()), now, Tick(pose, servicesReady))
    {
      if pose.Some? {
        status := status.(currentGps := pose.value);
      }
      OnTick(now, servicesReady);
    }

    /** One closure run by the strand. */
    method Handle(now: int, ev: Event)
      requires Valid()
      modifies this, laneMap`buffer, laneMap`size, laneMap.buffer
      ensures Valid() && laneMap.buffer == old(laneMap.buffer)
      ensures View() == Step(env, old(View()), now, ev)
    {
      if fault {
        return;
      }
      match ev {
        case Tick(pose, servicesReady) =>
          OnTickTimer(now, pose, servicesReady);
        case QueryEta(start, goal, cb, pose) =>
          var _ := QueryEta(now, start, goal, cb, pose);
        case StartTrip | GoToPickup | MoveCommand | Move =>
          HandleCommand(now, ev);
        case Cancel =>
          CancelTrip(now);
        case _ =>
          HandleMessage(now, ev);
      }
    }
  }
}
