/** What one strand step sends out: at most one publication, one callback, one notification and one
    command reply, in this order. */
module Outputs {
  import opened Base
  import opened LaneSpec
  import opened Resolvers
  import opened TripSpec
  import opened Runs
  import opened Steps

  function Snoc(log: seq<Output>, o: Option<Output>): seq<Output> {
    if o.Some? then log + [o.value] else log
  }

  predicate Due(s: Ctrl, now: int, period: int) {
    now - s.clock.lastPublish >= period
  }

  function One(b: bool): nat {
    if b then 1 else 0
  }

  function When(b: bool, o: Output): Option<Output> {
    if b then Some(o) else None
  }

  function TickPublishes(s: Ctrl, now: int, ready: bool): Option<Output> {
    match s.status.state
    case INITIALIZING_IN_MAP => When(!Localised(s) && Due(s, now, 1000), InitialPose(s.initPose))
    case QUERY_PUBLISHING_INITIAL_POSE => Some(InitialPose(s.status.startPose))
    case QUERY_WAITING_LOCALISATION => When(!Localised(s) && Due(s, now, 1000), InitialPose(s.status.startPose))
    case QUERY_PUBLISHING_GOAL => Some(Goal(s.status.goalPose))
    case QUERY_WAITING_ROUTE => When(s.inbox.routeState != Some(SET) && Due(s, now, 2000), Goal(s.status.goalPose))
    case PUBLISHING_INITIAL_POSE => Some(InitialPose(s.initPose))
    case WAITING_LOCALISATION =>
      if Localised(s) then Some(Goal(s.status.startPose)) else When(Due(s, now, 1000), InitialPose(s.initPose))
    case ENGAGING => When(Due(s, now, 2000), EngageAttempt(EngageSent(s, ready)))
    case DRIVING_TO_PICKUP => When(s.inbox.routeState == Some(ARRIVED), PickupArrived)
    case RUNNING => When(s.inbox.routeState == Some(ARRIVED), DropoffArrived)
    case _ => None
  }

  function Published(s: Ctrl, now: int, ev: Event, s': Ctrl): Option<Output> {
    match ev
    case Tick(_, ready) => TickPublishes(s, now, ready)
    case Cancel => if s.start.Some? then Some(InitialPose(s.start.value)) else None
    case Move => When(s.status.state == WAITING_FOR_MOVE, Goal(s'.status.goalPose))
    case MoveCommand => When(s.status.state == WAITING_FOR_MOVE, Goal(s'.status.goalPose))
    case _ => None
  }

  /** The callback that fires: a refused query's own, or the pending one when the query ends. */
  function Fired(s: Ctrl, ev: Event, s': Ctrl): Option<Output> {
    if ev.QueryEta? && s.status.state != IDLE then
      if ev.cb.Some? then Some(Fire(ev.cb.value, NO_RESULT.(error := NotIdle(s.status.state)))) else None
    else if ev.QueryEta? && ev.pose.None? then
      if ev.cb.Some? then Some(Fire(ev.cb.value, NO_RESULT.(error := NotLocalised))) else None
    else if ev.QueryEta? then
      if s'.status.state == IDLE && ev.cb.Some? then Some(Fire(ev.cb.value, s'.query.result)) else None
    else if ev.Tick? && Querying(s.status.state) && !Querying(s'.status.state) && s.query.cb.Some? then
      Some(Fire(s.query.cb.value, s'.query.result))
    else None
  }

  /** A change of phase is announced, except the reset by a cancel or by a failing query; the end of
      a successful query is announced as leaving IDLE. */
  predicate Silent(s: Ctrl, ev: Event, s': Ctrl) {
    s'.status.state == IDLE && (ev.Cancel? || Querying(s.status.state))
  }

  function Noted(s: Ctrl, ev: Event, s': Ctrl): Option<Output> {
    When(s'.status.state != s.status.state && !Silent(s, ev, s'),
         Notify(if s'.status.state == ROUTES_READY then IDLE else s.status.state, s'.status.state))
  }

  function Answers(s: Ctrl, ev: Event): Option<Output> {
    match ev
    case StartTrip => Some(Reply(s.status.state == ROUTES_READY))
    case GoToPickup => Some(Reply(s.status.state == WAITING_FOR_PICKUP_START))
    case Move => Some(Reply(s.status.state == WAITING_FOR_MOVE))
    case MoveCommand => Some(Reply(s.status.state == WAITING_FOR_PICKUP_START || s.status.state == WAITING_FOR_MOVE))
    case _ => None
  }

  ghost predicate StepSends(s: Ctrl, now: int, ev: Event, s': Ctrl) {
    && s'.log ==
         Snoc(Snoc(Snoc(Snoc(s.log, Published(s, now, ev, s')), Fired(s, ev, s')), Noted(s, ev, s')), Answers(s, ev))
    && (Fired(s, ev, s').Some? ==>
          (Fired(s, ev, s').value.result.success <==> s'.status.state == ROUTES_READY && ev.Tick?))
    && (ev.Tick? && s'.status.state == s.status.state ==>
          s'.clock.lastPublish == if TickPublishes(s, now, ev.servicesReady).Some? then now else s.clock.lastPublish)
    && (!ev.Tick? && s'.status.state == s.status.state ==> s'.clock.lastPublish == s.clock.lastPublish)
    && s'.query.cb ==
         (if ev.QueryEta? && s.status.state == IDLE && ev.pose.Some?
            then (if s'.status.state == IDLE then None else ev.cb)
          else if ev.Cancel? || !Querying(s'.status.state) then None
          else s.query.cb)
  }

  // ---- proofs, event by event ----

  lemma MessageSends(e: Env, s: Ctrl, now: int, ev: Event)
    requires !s.fault && (!Querying(s.status.state) ==> s.query.cb.None?) && IsMessage(ev)
    ensures StepSends(s, now, ev, Step(e, s, now, ev))
  {
  }

  lemma CancelSends(e: Env, s: Ctrl, now: int)
    requires Inv(e.m, s)
    ensures StepSends(s, now, Cancel, Step(e, s, now, Cancel))
  {
  }

  lemma FailQuerySends(s: Ctrl, now: int, reason: QueryError)
    ensures var s' := FailQuery(s, now, reason);
      && s'.status.state == IDLE && s'.query.cb == None && s'.clock == s.clock
      && s'.log == Snoc(s.log, if s.query.cb.Some? then Some(Fire(s.query.cb.value, s'.query.result)) else None)
      && (s.query.cb.Some? ==> !s'.query.result.success)
  {
  }

  lemma LegFromSends(e: Env, s: Ctrl, now: int, a: LaneInfo, to: Gps)
    requires Sound(e.m) && e.m.ok(s.cache) && e.m.onMap(a.id) && s.status.state != QUERY_PUBLISHING_INITIAL_POSE
    ensures var s' := LegFrom(e, s, now, a, to);
      || (s'.status.state == IDLE && s'.query.cb == None && s'.clock == s.clock
          && s'.log == Snoc(s.log, if s.query.cb.Some? then Some(Fire(s.query.cb.value, s'.query.result)) else None)
          && (s.query.cb.Some? ==> !s'.query.result.success))
      || (s'.status.state == QUERY_PUBLISHING_INITIAL_POSE && s'.query.cb == s.query.cb
          && s'.log == s.log + [Notify(s.status.state, QUERY_PUBLISHING_INITIAL_POSE)])
  {
    LookupFacts(e.m, s.cache, FromLane(to, a.id));
    var m := e.m.connected(s.cache, to, a.id);
    if m.answer.Missing? {
      var n := e.m.nearest(m.cache, to);
      FailQuerySends(s.(cache := n.cache), now, Unreached(n.answer, a.id));
    }
  }

  lemma QueryEtaSends(e: Env, s: Ctrl, now: int, ev: Event)
    requires Sound(e.m) && Inv(e.m, s) && ev.QueryEta?
    ensures StepSends(s, now, ev, Step(e, s, now, ev))
  {
    if s.status.state == IDLE && ev.pose.Some? {
      var q := Asked(s.query, ev.start, ev.goal, ev.cb);
      var s1 := s.(query := q, bank := EMPTY_BANK);
      LookupFacts(e.m, s.cache, AtGps(ev.pose.value));
      var l := StartLane(e, s1, ev.pose.value);
      if l.answer.Found? {
        LegFromSends(e, s1.(cache := l.cache), now, l.answer.info, ev.start);
      } else {
        FailQuerySends(s1.(cache := l.cache), now, NoOriginLane(Pickup));
      }
    }
  }

  lemma FinishPickupSends(e: Env, s: Ctrl, now: int, ready: bool)
    requires Sound(e.m) && e.m.ok(s.cache) && PickupLegInv(e.m, s) && s.query.leg.Pickup?
    requires s.status.state == QUERY_READING_ETA
    ensures StepSends(s, now, Tick(None, ready), FinishPickupLeg(e, s, now))
  {
    var id := s.status.goalId.id;
    LookupFacts(e.m, s.cache, OfId(id));
    var s1 := ClearRoute(s.(query := s.query.(result := s.query.result.(pickupLeg := LegResult(s)), leg := Trip),
                            bank := s.bank.(pickup := Some(Held(s, s.query.start, id)))));
    var l := StartLane(e, s1, s1.query.start);
    LegFromSends(e, s1.(cache := l.cache), now, l.answer.info, s1.query.goal);
  }

  lemma FinishTripSends(s: Ctrl, now: int, ready: bool)
    requires s.status.state == QUERY_READING_ETA
    ensures StepSends(s, now, Tick(None, ready), FinishTripLeg(s, now))
  {
  }

  lemma SendsIgnoreEta(s: Ctrl, now: int, ready: bool, s': Ctrl)
    requires StepSends(WithoutEta(s), now, Tick(None, ready), s')
    ensures StepSends(s, now, Tick(None, ready), s')
  {
  }

  lemma ReadEtaSends(e: Env, s: Ctrl, now: int, ready: bool)
    requires Sound(e.m) && Inv(e.m, s) && s.status.state == QUERY_READING_ETA
    ensures StepSends(s, now, Tick(None, ready), TickReadEta(e, s, now))
  {
    if EtaSettled(e.t, s, now) {
      var s1 := if s.query.etaReceived then s else WithoutEta(s);
      if s.query.leg.Pickup? {
        FinishPickupSends(e, s1, now, ready);
      } else {
        FinishTripSends(s1, now, ready);
      }
      if !s.query.etaReceived {
        SendsIgnoreEta(s, now, ready, TickReadEta(e, s, now));
      }
    }
  }

  lemma TickLocalisationSends(e: Env, s: Ctrl, now: int, ready: bool)
    requires s.status.state == QUERY_WAITING_LOCALISATION
    ensures StepSends(s, now, Tick(None, ready), TickWaitLocalisation(e, s, now))
  {
    if !Localised(s) {
      FailQuerySends(Republish(s, now, 1000, InitialPose(s.status.startPose)), now, LocalisationTimeout(s.query.leg));
    }
  }

  lemma TickRouteSends(e: Env, s: Ctrl, now: int, ready: bool)
    requires s.status.state == QUERY_WAITING_ROUTE
    ensures StepSends(s, now, Tick(None, ready), TickWaitRoute(e, s, now))
  {
    if s.inbox.routeState != Some(SET) {
      var reason := RouteTimeout(s.query.leg, s.status.startId, s.status.goalId);
      FailQuerySends(Republish(s, now, 2000, Goal(s.status.goalPose)), now, reason);
    }
  }

  lemma TickPublishSends(e: Env, s: Ctrl, now: int, ready: bool)
    requires s.status.state == QUERY_PUBLISHING_INITIAL_POSE || s.status.state == QUERY_PUBLISHING_GOAL
    ensures StepSends(s, now, Tick(None, ready), DoTick(e, s, now, ready))
  {
  }

  lemma TickSetUpSends(e: Env, s: Ctrl, now: int, ready: bool)
    requires s.query.cb == None
    requires s.status.state == INITIALIZING_IN_MAP || s.status.state == PUBLISHING_INITIAL_POSE
      || s.status.state == WAITING_LOCALISATION
    ensures StepSends(s, now, Tick(None, ready), DoTick(e, s, now, ready))
  {
  }

  lemma TickDriveSends(e: Env, s: Ctrl, now: int, ready: bool)
    requires s.query.cb == None
    requires s.status.state == ENGAGING || s.status.state == DRIVING_TO_PICKUP || s.status.state == RUNNING
    ensures StepSends(s, now, Tick(None, ready), TickDrive(s, now, ready))
  {
  }

  lemma DoTickSends(e: Env, s: Ctrl, now: int, ready: bool)
    requires Sound(e.m) && Inv(e.m, s)
    ensures StepSends(s, now, Tick(None, ready), DoTick(e, s, now, ready))
  {
    match s.status.state
    case QUERY_WAITING_LOCALISATION => TickLocalisationSends(e, s, now, ready);
    case QUERY_WAITING_ROUTE => TickRouteSends(e, s, now, ready);
    case QUERY_PUBLISHING_INITIAL_POSE => TickPublishSends(e, s, now, ready);
    case QUERY_PUBLISHING_GOAL => TickPublishSends(e, s, now, ready);
    case QUERY_READING_ETA => ReadEtaSends(e, s, now, ready);
    case ENGAGING => TickDriveSends(e, s, now, ready);
    case DRIVING_TO_PICKUP => TickDriveSends(e, s, now, ready);
    case RUNNING => TickDriveSends(e, s, now, ready);
    case INITIALIZING_IN_MAP => TickSetUpSends(e, s, now, ready);
    case PUBLISHING_INITIAL_POSE => TickSetUpSends(e, s, now, ready);
    case WAITING_LOCALISATION => TickSetUpSends(e, s, now, ready);
    case _ =>
  }

  lemma SendsIgnorePosition(s: Ctrl, now: int, pose: Option<Gps>, ready: bool, s': Ctrl)
    requires StepSends(SetCurrentGps(s, pose), now, Tick(None, ready), s')
    ensures StepSends(s, now, Tick(pose, ready), s')
  {
  }

  lemma TickSends(e: Env, s: Ctrl, now: int, pose: Option<Gps>, ready: bool)
    requires Sound(e.m) && Inv(e.m, s)
    ensures StepSends(s, now, Tick(pose, ready), Step(e, s, now, Tick(pose, ready)))
  {
    var s1 := SetCurrentGps(s, pose);
    SameCoreInv(e.m, s, s1);
    DoTickSends(e, s1, now, ready);
    SendsIgnorePosition(s, now, pose, ready, DoTick(e, s1, now, ready));
  }

  lemma StartTripSends(e: Env, s: Ctrl, now: int)
    requires Sound(e.m) && Inv(e.m, s)
    ensures StepSends(s, now, StartTrip, Step(e, s, now, StartTrip))
  {
    if s.status.state == ROUTES_READY {
      LookupFacts(e.m, s.cache, OfId(s.bank.pickup.value.goalLane));
    }
  }

  lemma DoMoveSends(e: Env, s: Ctrl, now: int)
    requires Sound(e.m) && Inv(e.m, s) && s.status.state == WAITING_FOR_MOVE
    ensures var r := DoMove(e, s, now);
      && r.1 && !r.0.fault && r.0.status.state == ENGAGING && r.0.query == s.query
      && r.0.log == s.log + [Goal(r.0.status.goalPose)] + [Notify(WAITING_FOR_MOVE, ENGAGING)]
  {
    LookupFacts(e.m, s.cache, FromLane(s.bank.trip.value.goalGps, s.status.startId.id));
  }

  lemma MoveSends(e: Env, s: Ctrl, now: int, ev: Event)
    requires Sound(e.m) && Inv(e.m, s) && (ev.Move? || ev.MoveCommand? || ev.GoToPickup?)
    ensures StepSends(s, now, ev, Step(e, s, now, ev))
  {
    if s.status.state == WAITING_FOR_MOVE {
      AcceptedMoveSends(e, s, now, ev);
    } else {
      GoToPickupSends(e, s, now, ev);
    }
  }

  lemma AcceptedMoveSends(e: Env, s: Ctrl, now: int, ev: Event)
    requires Sound(e.m) && Inv(e.m, s) && (ev.Move? || ev.MoveCommand? || ev.GoToPickup?)
    requires s.status.state == WAITING_FOR_MOVE
    ensures StepSends(s, now, ev, Step(e, s, now, ev))
  {
    DoMoveSends(e, s, now);
  }

  lemma GoToPickupSends(e: Env, s: Ctrl, now: int, ev: Event)
    requires !s.fault && (!Querying(s.status.state) ==> s.query.cb.None?)
    requires (ev.Move? || ev.MoveCommand? || ev.GoToPickup?)
    requires s.status.state != WAITING_FOR_MOVE
    ensures StepSends(s, now, ev, Step(e, s, now, ev))
  {
  }

  lemma SendsOfStep(e: Env, s: Ctrl, now: int, ev: Event)
    requires Sound(e.m) && Inv(e.m, s)
    ensures StepSends(s, now, ev, Step(e, s, now, ev))
  {
    match ev
    case Tick(pose, ready) => TickSends(e, s, now, pose, ready);
    case QueryEta(_, _, _, _) => QueryEtaSends(e, s, now, ev);
    case StartTrip => StartTripSends(e, s, now);
    case GoToPickup => MoveSends(e, s, now, ev);
    case MoveCommand => MoveSends(e, s, now, ev);
    case Move => MoveSends(e, s, now, ev);
    case Cancel => CancelSends(e, s, now);
    case _ => MessageSends(e, s, now, ev);
  }

  /** The outputs of step i of a run. */
  lemma SendsAt(e: Env, r: Run, i: nat)
    requires IsRun(e, r) && i < |r.evs|
    ensures StepSends(r.states[i], r.evs[i].now, r.evs[i].ev, r.states[i+1])
  {
    InvAt(e, r, i);
    assert StepAt(e, r, i);
    SendsOfStep(e, r.states[i], r.evs[i].now, r.evs[i].ev);
  }
}
