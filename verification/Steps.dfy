/** What one strand step can do, stated by phases rather than by operations. */
module Steps {
  import opened Base
  import opened LaneSpec
  import opened Resolvers
  import opened TripSpec
  import opened Runs

  /** The lanes of the current leg, the query it answers and the bank are kept. */
  ghost predicate SameTrip(s: Ctrl, s': Ctrl) {
    && s'.status.startId == s.status.startId && s'.status.startPose == s.status.startPose
    && s'.status.goalId == s.status.goalId && s'.status.goalPose == s.status.goalPose
    && s'.query.leg == s.query.leg && s'.query.start == s.query.start && s'.query.goal == s.query.goal
    && s'.query.cb == s.query.cb && s'.query.result == s.query.result
    && s'.bank == s.bank
  }

  /** The commands and replies that the phase cannot outlast. */
  predicate Ends(st: TripState, ev: Event) {
    match st
    case ROUTES_READY => ev.StartTrip?
    case WAITING_FOR_PICKUP_START => ev.GoToPickup? || ev.MoveCommand?
    case ENGAGING => ev.EngageAccepted?
    case WAITING_FOR_MOVE => ev.Move? || ev.MoveCommand?
    case _ => false
  }

  /** The figures a leg is quoted with: the last ETA read, or zero. */
  function QuotedLeg(s: Ctrl): LegEta {
    LegEta(true, if s.query.etaReceived then s.query.etaDistance else 0.0,
           if s.query.etaReceived then s.query.etaSeconds else 0.0, s.status.startId, s.status.goalId)
  }

  ghost predicate PickupQuoted(s: Ctrl, s': Ctrl) {
    && s'.query.leg == Trip && s'.query.start == s.query.start && s'.query.goal == s.query.goal
    && s'.query.cb == s.query.cb
    && s'.query.result == s.query.result.(pickupLeg := QuotedLeg(s))
    && s'.bank.pickup.Some? && s.status.goalId == Text(s'.bank.pickup.value.goalLane) == s'.status.startId
    && s'.bank.pickup.value.route == LastRoute(s)
  }

  /** The planner's last route message, or an empty route before the first. */
  function LastRoute(s: Ctrl): Route {
    match s.inbox.lastRoute
    case Some(route) => route
    case None => []
  }

  ghost predicate TripQuoted(s: Ctrl, s': Ctrl) {
    && s'.query.result == s.query.result.(tripLeg := QuotedLeg(s), success := true)
    && s'.bank.pickup == s.bank.pickup
    && s'.bank.trip.Some? && s'.bank.trip.value.goalGps == s.query.goal && s'.bank.trip.value.route == LastRoute(s)
    && s'.bank.trip.value.distance == QuotedLeg(s).distance && s'.bank.trip.value.seconds == QuotedLeg(s).seconds
  }

  ghost predicate EtaSettled(t: Timings, s: Ctrl, now: int) {
    s.query.etaReceived || now - s.clock.enteredAt >= t.etaSettle
  }

  /** The possible changes of phase. */
  ghost predicate Edge(t: Timings, s: Ctrl, now: int, ev: Event, s': Ctrl) {
    var st' := s'.status.state;
    || (ev.Cancel? && st' == IDLE)
    || match s.status.state
       case INITIALIZING_IN_MAP => ev.Tick? && st' == IDLE && Localised(s)
       case IDLE =>
         && ev.QueryEta? && ev.pose.Some? && st' == QUERY_PUBLISHING_INITIAL_POSE
         && s'.query.leg == Pickup && s'.query.start == ev.start && s'.query.goal == ev.goal && s'.query.cb == ev.cb
       case QUERY_PUBLISHING_INITIAL_POSE => ev.Tick? && st' == QUERY_WAITING_LOCALISATION && SameTrip(s, s')
       case QUERY_WAITING_LOCALISATION =>
         && ev.Tick?
         && if Localised(s) then st' == QUERY_PUBLISHING_GOAL && SameTrip(s, s')
            else st' == IDLE && now - s.clock.enteredAt >= t.locTimeout
       case QUERY_PUBLISHING_GOAL => ev.Tick? && st' == QUERY_WAITING_ROUTE && SameTrip(s, s')
       case QUERY_WAITING_ROUTE =>
         && ev.Tick?
         && if s.inbox.routeState == Some(SET) then st' == QUERY_READING_ETA && SameTrip(s, s') && !s'.query.etaReceived
            else st' == IDLE && now - s.clock.enteredAt >= t.routeTimeout
       case QUERY_READING_ETA =>
         && ev.Tick? && EtaSettled(t, s, now)
         && if s.query.leg.Pickup? then st' == IDLE || (st' == QUERY_PUBLISHING_INITIAL_POSE && PickupQuoted(s, s'))
            else st' == ROUTES_READY && TripQuoted(s, s')
       case ROUTES_READY => ev.StartTrip? && st' == WAITING_FOR_PICKUP_START && s'.bank == s.bank
       case WAITING_FOR_PICKUP_START =>
         (ev.GoToPickup? || ev.MoveCommand?) && st' == PUBLISHING_INITIAL_POSE && SameTrip(s, s')
       case PUBLISHING_INITIAL_POSE => ev.Tick? && st' == WAITING_LOCALISATION && SameTrip(s, s')
       case WAITING_LOCALISATION => ev.Tick? && Localised(s) && st' == ENGAGING && SameTrip(s, s')
       case ENGAGING =>
         ev.EngageAccepted? && st' == (if s.engagingForPickup then DRIVING_TO_PICKUP else RUNNING) && SameTrip(s, s')
       case DRIVING_TO_PICKUP =>
         ev.Tick? && s.inbox.routeState == Some(ARRIVED) && st' == WAITING_FOR_MOVE && SameTrip(s, s')
       case WAITING_FOR_MOVE => (ev.Move? || ev.MoveCommand?) && st' == ENGAGING && s'.bank == s.bank
       case RUNNING => ev.Tick? && s.inbox.routeState == Some(ARRIVED) && st' == COMPLETED && SameTrip(s, s')
       case _ => false
  }

  /** What a stay in a phase other than IDLE keeps, and the phases a tick must leave. */
  ghost predicate Stay(t: Timings, s: Ctrl, now: int, ev: Event, s': Ctrl) {
    && SameTrip(s, s') && s'.clock.enteredAt == s.clock.enteredAt && !ev.Cancel? && !Ends(s.status.state, ev)
    && (ev.EtaMessage? && s.status.state == QUERY_READING_ETA ==>
          s'.query.etaReceived && s'.query.etaDistance == ev.distance && s'.query.etaSeconds == ev.seconds)
    && (!ev.EtaMessage? || s.status.state != QUERY_READING_ETA ==>
          s'.query.etaReceived == s.query.etaReceived && s'.query.etaDistance == s.query.etaDistance
          && s'.query.etaSeconds == s.query.etaSeconds)
    && (ev.Tick? ==>
          match s.status.state
          case QUERY_PUBLISHING_INITIAL_POSE | QUERY_PUBLISHING_GOAL | PUBLISHING_INITIAL_POSE => false
          case QUERY_WAITING_LOCALISATION => !Localised(s) && now - s.clock.enteredAt < t.locTimeout
          case QUERY_WAITING_ROUTE => s.inbox.routeState != Some(SET) && now - s.clock.enteredAt < t.routeTimeout
          case QUERY_READING_ETA => !EtaSettled(t, s, now)
          case INITIALIZING_IN_MAP | WAITING_LOCALISATION => !Localised(s)
          case DRIVING_TO_PICKUP | RUNNING => s.inbox.routeState != Some(ARRIVED)
          case _ => true)
  }

  /** The only ways to change the leg flag. */
  predicate EngagingAfter(s: Ctrl, ev: Event, s': Ctrl) {
    s'.engagingForPickup ==
      if ev.StartTrip? then true
      else if ev.Cancel? || (s.status.state == WAITING_FOR_MOVE && s'.status.state == ENGAGING) then false
      else s.engagingForPickup
  }

  /** The steps that empty the route-state mailbox. */
  predicate EmptiesMailbox(s: Ctrl, ev: Event, s': Ctrl) {
    || ev.StartTrip? || ev.Cancel?
    || (s.status.state != s'.status.state &&
          match s.status.state
          case QUERY_PUBLISHING_GOAL | WAITING_FOR_PICKUP_START | DRIVING_TO_PICKUP | WAITING_FOR_MOVE | RUNNING => true
          case QUERY_READING_ETA => s.query.leg.Pickup?
          case _ => false)
  }

  predicate MailboxAfter(s: Ctrl, ev: Event, s': Ctrl) {
    s'.inbox.routeState ==
      if ev.RouteStateMessage? then Some(ev.route)
      else if EmptiesMailbox(s, ev, s') then None
      else s.inbox.routeState
  }

  ghost predicate StepFacts(t: Timings, s: Ctrl, now: int, ev: Event, s': Ctrl) {
    && EngagingAfter(s, ev, s') && MailboxAfter(s, ev, s')
    && (s'.status.state != s.status.state ==> Edge(t, s, now, ev, s'))
    && (s'.status.state != s.status.state && s'.status.state != IDLE ==>
          s'.clock == Clock(0, now) && s'.status.lastStateChange == now)
    && (s'.status.state == s.status.state && s.status.state != IDLE ==> Stay(t, s, now, ev, s'))
  }

  // ---- proofs, event by event ----

  lemma MessageFacts(e: Env, s: Ctrl, now: int, ev: Event)
    requires !s.fault && IsMessage(ev)
    ensures StepFacts(e.t, s, now, ev, Step(e, s, now, ev))
  {
  }

  lemma CancelFacts(e: Env, s: Ctrl, now: int)
    requires Inv(e.m, s)
    ensures StepFacts(e.t, s, now, Cancel, Step(e, s, now, Cancel))
  {
  }

  lemma FailQueryFacts(s: Ctrl, now: int, reason: QueryError)
    ensures var s' := FailQuery(s, now, reason);
      s'.status.state == IDLE && s'.inbox.routeState == s.inbox.routeState
      && s'.engagingForPickup == s.engagingForPickup
  {
  }

  lemma LegFromFacts(e: Env, s: Ctrl, now: int, a: LaneInfo, to: Gps)
    requires Sound(e.m) && e.m.ok(s.cache) && e.m.onMap(a.id) && s.status.state != QUERY_PUBLISHING_INITIAL_POSE
    ensures var s' := LegFrom(e, s, now, a, to);
      && s'.inbox.routeState == s.inbox.routeState && s'.engagingForPickup == s.engagingForPickup
      && (s'.status.state == IDLE
          || (s'.status.state == QUERY_PUBLISHING_INITIAL_POSE && s'.clock == Clock(0, now)
              && s'.query == s.query && s'.bank == s.bank && s'.status.startId == Text(a.id)))
  {
    LookupFacts(e.m, s.cache, FromLane(to, a.id));
    var m := e.m.connected(s.cache, to, a.id);
    if m.answer.Missing? {
      var n := e.m.nearest(m.cache, to);
      FailQueryFacts(s.(cache := n.cache), now, Unreached(n.answer, a.id));
    }
  }

  lemma QueryEtaFacts(e: Env, s: Ctrl, now: int, ev: Event)
    requires Sound(e.m) && Inv(e.m, s) && ev.QueryEta?
    ensures StepFacts(e.t, s, now, ev, Step(e, s, now, ev))
  {
    if s.status.state == IDLE && ev.pose.Some? {
      var q := Asked(s.query, ev.start, ev.goal, ev.cb);
      var s1 := s.(query := q, bank := EMPTY_BANK);
      LookupFacts(e.m, s.cache, AtGps(ev.pose.value));
      var l := StartLane(e, s1, ev.pose.value);
      if l.answer.Found? {
        LegFromFacts(e, s1.(cache := l.cache), now, l.answer.info, ev.start);
      }
    }
  }

  /** An idle, localised controller accepts every query and says so, but a leg is started exactly when
      the vehicle's lane is found and some usable lane is within its reach; otherwise the query has
      already failed when the command returns. */
  lemma QueryEtaOutcome(e: Env, s: Ctrl, now: int, ev: Event)
    requires Sound(e.m) && Inv(e.m, s) && ev.QueryEta? && s.status.state == IDLE && ev.pose.Some?
    ensures var r := DoQueryEta(e, s, now, ev.start, ev.goal, ev.cb, ev.pose);
      var origin := e.m.nearest(s.cache, ev.pose.value).answer;
      && r.1
      && (r.0.status.state == QUERY_PUBLISHING_INITIAL_POSE ==> r.0.status.startId == Text(origin.info.id))
      && (r.0.status.state == QUERY_PUBLISHING_INITIAL_POSE <==>
            origin.Found? && e.m.goalFrom(ev.start, origin.info.id).Some?)
      && (r.0.status.state != QUERY_PUBLISHING_INITIAL_POSE ==> r.0.status.state == IDLE && r.0.bank == EMPTY_BANK)
  {
    var q := Asked(s.query, ev.start, ev.goal, ev.cb);
    var s1 := s.(query := q, bank := EMPTY_BANK);
    LookupFacts(e.m, s.cache, AtGps(ev.pose.value));
    var l := StartLane(e, s1, ev.pose.value);
    if l.answer.Found? {
      LookupFacts(e.m, l.cache, FromLane(ev.start, l.answer.info.id));
    }
  }

  /** queryEta says true to a query of an idle, localised controller and to no other. */
  lemma QueryEtaReply(e: Env, s: Ctrl, now: int, ev: Event)
    requires ev.QueryEta?
    ensures DoQueryEta(e, s, now, ev.start, ev.goal, ev.cb, ev.pose).1 <==> s.status.state == IDLE && ev.pose.Some?
  {
  }

  lemma FinishPickupFacts(e: Env, s: Ctrl, now: int)
    requires Sound(e.m) && e.m.ok(s.cache) && s.status.state == QUERY_READING_ETA
    requires s.query.leg.Pickup? && PickupLegInv(e.m, s)
    ensures var s' := FinishPickupLeg(e, s, now);
      && s'.inbox.routeState == None && s'.engagingForPickup == s.engagingForPickup
      && (s'.status.state == IDLE
          || (s'.status.state == QUERY_PUBLISHING_INITIAL_POSE && s'.clock == Clock(0, now)
              && s'.query == s.query.(leg := Trip, result := s.query.result.(pickupLeg := LegResult(s)))
              && s'.bank.pickup.Some? && s.status.goalId == Text(s'.bank.pickup.value.goalLane) == s'.status.startId
              && s'.bank.pickup.value.route == LastRoute(s)))
  {
    var id := s.status.goalId.id;
    LookupFacts(e.m, s.cache, OfId(id));
    var s1 := ClearRoute(s.(query := s.query.(result := s.query.result.(pickupLeg := LegResult(s)), leg := Trip),
                            bank := s.bank.(pickup := Some(Held(s, s.query.start, id)))));
    var l := StartLane(e, s1, s1.query.start);
    LegFromFacts(e, s1.(cache := l.cache), now, l.answer.info, s1.query.goal);
  }

  lemma ReadEtaFacts(e: Env, s: Ctrl, now: int, ready: bool)
    requires Sound(e.m) && Inv(e.m, s) && s.status.state == QUERY_READING_ETA
    ensures StepFacts(e.t, s, now, Tick(None, ready), TickReadEta(e, s, now))
  {
    if EtaSettled(e.t, s, now) {
      var s1 := if s.query.etaReceived then s else WithoutEta(s);
      SameCoreInv(e.m, s, s1);
      if s.query.leg.Pickup? {
        FinishPickupFacts(e, s1, now);
      } else {
        FinishTripFacts(e, s, s1, now, ready);
      }
    }
  }

  lemma FinishTripFacts(e: Env, s: Ctrl, s1: Ctrl, now: int, ready: bool)
    requires s.status.state == QUERY_READING_ETA && s.query.leg.Trip? && EtaSettled(e.t, s, now)
    requires s1 == if s.query.etaReceived then s else WithoutEta(s)
    ensures StepFacts(e.t, s, now, Tick(None, ready), FinishTripLeg(s1, now))
  {
  }

  lemma TickLocalisationFacts(e: Env, s: Ctrl, now: int, ready: bool)
    requires s.status.state == QUERY_WAITING_LOCALISATION
    ensures StepFacts(e.t, s, now, Tick(None, ready), TickWaitLocalisation(e, s, now))
  {
  }

  lemma TickRouteFacts(e: Env, s: Ctrl, now: int, ready: bool)
    requires s.status.state == QUERY_WAITING_ROUTE
    ensures StepFacts(e.t, s, now, Tick(None, ready), TickWaitRoute(e, s, now))
  {
  }

  lemma TickDriveFacts(e: Env, s: Ctrl, now: int, ready: bool)
    requires s.status.state == ENGAGING || s.status.state == DRIVING_TO_PICKUP || s.status.state == RUNNING
    ensures StepFacts(e.t, s, now, Tick(None, ready), TickDrive(s, now, ready))
  {
  }

  lemma TickPublishFacts(e: Env, s: Ctrl, now: int, ready: bool)
    requires s.status.state == QUERY_PUBLISHING_INITIAL_POSE || s.status.state == QUERY_PUBLISHING_GOAL
    ensures StepFacts(e.t, s, now, Tick(None, ready), DoTick(e, s, now, ready))
  {
  }

  lemma TickSetUpFacts(e: Env, s: Ctrl, now: int, ready: bool)
    requires s.status.state == INITIALIZING_IN_MAP || s.status.state == PUBLISHING_INITIAL_POSE
      || s.status.state == WAITING_LOCALISATION
    ensures StepFacts(e.t, s, now, Tick(None, ready), DoTick(e, s, now, ready))
  {
  }

  lemma DoTickFacts(e: Env, s: Ctrl, now: int, ready: bool)
    requires Sound(e.m) && Inv(e.m, s)
    ensures StepFacts(e.t, s, now, Tick(None, ready), DoTick(e, s, now, ready))
  {
    match s.status.state
    case QUERY_WAITING_LOCALISATION => TickLocalisationFacts(e, s, now, ready);
    case QUERY_WAITING_ROUTE => TickRouteFacts(e, s, now, ready);
    case QUERY_PUBLISHING_INITIAL_POSE => TickPublishFacts(e, s, now, ready);
    case QUERY_PUBLISHING_GOAL => TickPublishFacts(e, s, now, ready);
    case QUERY_READING_ETA => ReadEtaFacts(e, s, now, ready);
    case ENGAGING => TickDriveFacts(e, s, now, ready);
    case DRIVING_TO_PICKUP => TickDriveFacts(e, s, now, ready);
    case RUNNING => TickDriveFacts(e, s, now, ready);
    case INITIALIZING_IN_MAP => TickSetUpFacts(e, s, now, ready);
    case PUBLISHING_INITIAL_POSE => TickSetUpFacts(e, s, now, ready);
    case WAITING_LOCALISATION => TickSetUpFacts(e, s, now, ready);
    case _ =>
  }

  lemma FactsIgnorePosition(t: Timings, s: Ctrl, now: int, pose: Option<Gps>, ready: bool, s': Ctrl)
    requires StepFacts(t, SetCurrentGps(s, pose), now, Tick(None, ready), s')
    ensures StepFacts(t, s, now, Tick(pose, ready), s')
  {
  }

  lemma TickFacts(e: Env, s: Ctrl, now: int, pose: Option<Gps>, ready: bool)
    requires Sound(e.m) && Inv(e.m, s)
    ensures StepFacts(e.t, s, now, Tick(pose, ready), Step(e, s, now, Tick(pose, ready)))
  {
    var s1 := SetCurrentGps(s, pose);
    SameCoreInv(e.m, s, s1);
    DoTickFacts(e, s1, now, ready);
    FactsIgnorePosition(e.t, s, now, pose, ready, DoTick(e, s1, now, ready));
  }

  lemma StartTripFacts(e: Env, s: Ctrl, now: int)
    requires Sound(e.m) && Inv(e.m, s)
    ensures StepFacts(e.t, s, now, StartTrip, Step(e, s, now, StartTrip))
  {
    if s.status.state == ROUTES_READY {
      LookupFacts(e.m, s.cache, OfId(s.bank.pickup.value.goalLane));
    }
  }

  lemma DoMoveFacts(e: Env, s: Ctrl, now: int)
    requires Sound(e.m) && Inv(e.m, s) && s.status.state == WAITING_FOR_MOVE
    ensures var r := DoMove(e, s, now);
      && r.1 && !r.0.fault && r.0.status.state == ENGAGING && r.0.clock == Clock(0, now)
      && r.0.bank == s.bank && r.0.inbox.routeState.None? && !r.0.engagingForPickup
  {
    LookupFacts(e.m, s.cache, FromLane(s.bank.trip.value.goalGps, s.status.startId.id));
  }

  lemma MoveFacts(e: Env, s: Ctrl, now: int, ev: Event)
    requires Sound(e.m) && Inv(e.m, s) && (ev.Move? || ev.MoveCommand? || ev.GoToPickup?)
    ensures StepFacts(e.t, s, now, ev, Step(e, s, now, ev))
  {
    if s.status.state == WAITING_FOR_MOVE {
      AcceptedMoveFacts(e, s, now, ev);
    } else if s.status.state == WAITING_FOR_PICKUP_START {
      GoToPickupFacts(e, s, now, ev);
    } else {
      RefusedMoveFacts(e, s, now, ev);
    }
  }

  lemma AcceptedMoveFacts(e: Env, s: Ctrl, now: int, ev: Event)
    requires Sound(e.m) && Inv(e.m, s) && (ev.Move? || ev.MoveCommand? || ev.GoToPickup?)
    requires s.status.state == WAITING_FOR_MOVE
    ensures StepFacts(e.t, s, now, ev, Step(e, s, now, ev))
  {
    DoMoveFacts(e, s, now);
  }

  lemma RefusedMoveFacts(e: Env, s: Ctrl, now: int, ev: Event)
    requires !s.fault && (ev.Move? || ev.MoveCommand? || ev.GoToPickup?)
    requires s.status.state != WAITING_FOR_MOVE && s.status.state != WAITING_FOR_PICKUP_START
    ensures StepFacts(e.t, s, now, ev, Step(e, s, now, ev))
  {
  }

  lemma GoToPickupFacts(e: Env, s: Ctrl, now: int, ev: Event)
    requires !s.fault && s.status.state == WAITING_FOR_PICKUP_START && (ev.Move? || ev.MoveCommand? || ev.GoToPickup?)
    ensures StepFacts(e.t, s, now, ev, Step(e, s, now, ev))
  {
  }

  lemma FactsOfStep(e: Env, s: Ctrl, now: int, ev: Event)
    requires Sound(e.m) && Inv(e.m, s)
    ensures StepFacts(e.t, s, now, ev, Step(e, s, now, ev))
  {
    match ev
    case Tick(pose, ready) =>
      TickFacts(e, s, now, pose, ready);
    case QueryEta(_, _, _, _) => QueryEtaFacts(e, s, now, ev);
    case StartTrip => StartTripFacts(e, s, now);
    case GoToPickup => MoveFacts(e, s, now, ev);
    case MoveCommand => MoveFacts(e, s, now, ev);
    case Move => MoveFacts(e, s, now, ev);
    case Cancel => CancelFacts(e, s, now);
    case _ => MessageFacts(e, s, now, ev);
  }

  lemma StepFactsAt(e: Env, r: Run, i: nat)
    requires IsRun(e, r) && i < |r.evs| && Inv(e.m, r.states[i])
    ensures StepFacts(e.t, r.states[i], r.evs[i].now, r.evs[i].ev, r.states[i+1])
  {
    assert StepAt(e, r, i);
    FactsOfStep(e, r.states[i], r.evs[i].now, r.evs[i].ev);
  }

  /** The facts of step i of a run. */
  lemma FactsAt(e: Env, r: Run, i: nat)
    requires IsRun(e, r) && i < |r.evs|
    ensures Inv(e.m, r.states[i]) && Inv(e.m, r.states[i+1])
    ensures StepFacts(e.t, r.states[i], r.evs[i].now, r.evs[i].ev, r.states[i+1])
  {
    InvAt(e, r, i);
    InvAt(e, r, i + 1);
    StepFactsAt(e, r, i);
  }
}
