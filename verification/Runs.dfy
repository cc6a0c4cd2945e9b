/** Runs of the controller and the invariant every reachable state keeps. */
module Runs {
  import opened Base
  import opened LaneSpec
  import opened Resolvers
  import opened TripSpec

  datatype Timed = Timed(now: int, ev: Event)

  /** A run from boot: evs[i] leads from states[i] to states[i+1]. */
  datatype Run = Run(startGps: Option<Gps>, t0: int, states: seq<Ctrl>, evs: seq<Timed>)

  ghost predicate StepAt(e: Env, r: Run, i: nat)
    requires |r.states| == |r.evs| + 1 && i < |r.evs|
  {
    r.states[i+1] == Step(e, r.states[i], r.evs[i].now, r.evs[i].ev)
  }

  ghost predicate IsRun(e: Env, r: Run) {
    && Sound(e.m)
    && |r.states| == |r.evs| + 1
    && r.states[0] == Boot(e.m, r.startGps, r.t0)
    && forall i :: 0 <= i < |r.evs| ==> StepAt(e, r, i)
  }

  predicate Querying(st: TripState) {
    match st
    case QUERY_PUBLISHING_INITIAL_POSE | QUERY_WAITING_LOCALISATION | QUERY_PUBLISHING_GOAL
       | QUERY_WAITING_ROUTE | QUERY_READING_ETA => true
    case _ => false
  }

  /** From the accepted startTrip on. */
  predicate Committed(st: TripState) {
    match st
    case WAITING_FOR_PICKUP_START | PUBLISHING_INITIAL_POSE | WAITING_LOCALISATION | ENGAGING
       | DRIVING_TO_PICKUP | WAITING_FOR_MOVE | RUNNING | COMPLETED => true
    case _ => false
  }

  predicate Banked(st: TripState) {
    st == ROUTES_READY || Committed(st)
  }

  /** The text names a cached lane and the pose is that entry's. */
  ghost predicate HasLane(m: Resolver, cache: seq<LaneInfo>, text: LaneText, pose: Pose) {
    text.Text? && m.entry(cache, text.id).Some?
    && pose == PoseAt(m.entry(cache, text.id).value.local, m.entry(cache, text.id).value.orientation)
  }

  ghost predicate LegInv(m: Resolver, s: Ctrl, to: Gps) {
    && HasLane(m, s.cache, s.status.startId, s.status.startPose)
    && HasLane(m, s.cache, s.status.goalId, s.status.goalPose)
    && m.onMap(s.status.startId.id) && m.onMap(s.status.goalId.id)
    && m.goalFrom(to, s.status.startId.id) == Some(s.status.goalId.id)
    && s.status.goalGps == to
    && s.status.goalDistance == m.snap(m.entry(s.cache, s.status.goalId.id).value.local, to)
  }

  ghost predicate PickupLegInv(m: Resolver, s: Ctrl) {
    LegInv(m, s, s.query.start) && s.bank == EMPTY_BANK && s.query.result == NO_RESULT
  }

  ghost predicate TripLegInv(m: Resolver, s: Ctrl) {
    && LegInv(m, s, s.query.goal)
    && s.bank.pickup.Some? && s.bank.trip.None?
    && s.status.startId == Text(s.bank.pickup.value.goalLane)
    && s.bank.pickup.value.goalGps == s.query.start
    && s.query.result == NO_RESULT.(pickupLeg := s.query.result.pickupLeg)
    && s.query.result.pickupLeg.success && s.query.result.pickupLeg.goalLane == s.status.startId
  }

  /** Both legs are held and both goals are cached. */
  ghost predicate BankInv(m: Resolver, s: Ctrl) {
    && s.bank.pickup.Some? && s.bank.trip.Some?
    && var from := s.bank.pickup.value.goalLane;
       var goal := m.goalFrom(s.bank.trip.value.goalGps, from);
    && m.entry(s.cache, from).Some? && m.onMap(from)
    && goal.Some? && m.entry(s.cache, goal.value).Some?
  }

  ghost predicate Inv(m: Resolver, s: Ctrl) {
    && !s.fault && m.ok(s.cache)
    && s.status.state != FAILED && s.status.state != CANCELLED
    && (s.status.state == IDLE || s.status.state == INITIALIZING_IN_MAP ==> s.bank == EMPTY_BANK)
    && (s.query.active <==> Querying(s.status.state))
    && (!Querying(s.status.state) ==> s.query.cb.None?)
    && (Querying(s.status.state) ==> if s.query.leg.Pickup? then PickupLegInv(m, s) else TripLegInv(m, s))
    && (Banked(s.status.state) ==> BankInv(m, s))
    && (Committed(s.status.state) ==>
          s.status.startId == Text(s.bank.pickup.value.goalLane) && s.status.startGps == s.bank.pickup.value.goalGps
          && HasLane(m, s.cache, s.status.startId, s.status.startPose))
  }

  // ---- preservation, operation by operation ----

  lemma LookupFacts(m: Resolver, cache: seq<LaneInfo>, q: Probe)
    requires Sound(m) && m.ok(cache)
    ensures SoundAt(m, cache, q)
  {
  }

  lemma FailQueryInv(m: Resolver, s: Ctrl, now: int, reason: QueryError)
    requires m.ok(s.cache) && !s.fault
    ensures Inv(m, FailQuery(s, now, reason))
    ensures FailQuery(s, now, reason).status.state == IDLE
  {
  }

  lemma LegFromInv(e: Env, s: Ctrl, now: int, a: LaneInfo, to: Gps)
    requires Sound(e.m) && e.m.ok(s.cache) && !s.fault && s.query.active
    requires e.m.entry(s.cache, a.id) == Some(a) && e.m.onMap(a.id)
    requires to == (if s.query.leg.Pickup? then s.query.start else s.query.goal)
    requires s.query.leg.Pickup? ==> s.bank == EMPTY_BANK && s.query.result == NO_RESULT
    requires s.query.leg.Trip? ==>
      && s.bank.pickup.Some? && s.bank.trip.None? && s.bank.pickup.value.goalLane == a.id
      && s.bank.pickup.value.goalGps == s.query.start
      && s.query.result == NO_RESULT.(pickupLeg := s.query.result.pickupLeg)
      && s.query.result.pickupLeg.success && s.query.result.pickupLeg.goalLane == Text(a.id)
    requires s.status.state != QUERY_PUBLISHING_INITIAL_POSE
    ensures Inv(e.m, LegFrom(e, s, now, a, to))
  {
    var q := FromLane(to, a.id);
    LookupFacts(e.m, s.cache, q);
    var m := Probed(e.m, s.cache, q);
    if m.answer.Missing? {
      LookupFacts(e.m, m.cache, AtGps(to));
      var n := e.m.nearest(m.cache, to);
      FailQueryInv(e.m, s.(cache := n.cache), now, Unreached(n.answer, a.id));
    }
  }

  lemma QueryEtaInv(e: Env, s: Ctrl, now: int, start: Gps, goal: Gps, cb: Option<Callback>, pose: Option<Gps>)
    requires Sound(e.m) && Inv(e.m, s)
    ensures Inv(e.m, DoQueryEta(e, s, now, start, goal, cb, pose).0)
  {
    if s.status.state == IDLE && pose.Some? {
      var q := Asked(s.query, start, goal, cb);
      var s1 := s.(query := q, bank := EMPTY_BANK);
      LookupFacts(e.m, s.cache, AtGps(pose.value));
      var l := StartLane(e, s1, pose.value);
      match l.answer
      case Threw =>
      case Missing => FailQueryInv(e.m, s1.(cache := l.cache), now, NoOriginLane(Pickup));
      case Found(a) => LegFromInv(e, s1.(cache := l.cache), now, a, start);
    }
  }

  lemma FinishPickupInv(e: Env, s: Ctrl, now: int)
    requires Sound(e.m) && e.m.ok(s.cache) && !s.fault && s.status.state == QUERY_READING_ETA && s.query.active
    requires s.query.leg.Pickup? && PickupLegInv(e.m, s)
    ensures Inv(e.m, FinishPickupLeg(e, s, now))
  {
    var id := s.status.goalId.id;
    LookupFacts(e.m, s.cache, OfId(id));
    var s1 := ClearRoute(s.(query := s.query.(result := s.query.result.(pickupLeg := LegResult(s)), leg := Trip),
                            bank := s.bank.(pickup := Some(Held(s, s.query.start, id)))));
    var l := StartLane(e, s1, s1.query.start);
    LegFromInv(e, s1.(cache := l.cache), now, l.answer.info, s1.query.goal);
  }

  lemma FinishTripInv(m: Resolver, s: Ctrl, now: int)
    requires m.ok(s.cache) && !s.fault && s.query.leg.Trip? && TripLegInv(m, s)
    ensures Inv(m, FinishTripLeg(s, now))
  {
  }

  /** Inv reads the query, the bank, the cache and the lanes and poses of the status only. */
  ghost predicate SameCore(s: Ctrl, s': Ctrl) {
    && s'.fault == s.fault && s'.cache == s.cache && s'.bank == s.bank
    && s'.query.cb == s.query.cb && s'.query.leg == s.query.leg && s'.query.result == s.query.result
    && s'.query.active == s.query.active
    && s'.query.start == s.query.start && s'.query.goal == s.query.goal
    && s'.status.startId == s.status.startId && s'.status.startPose == s.status.startPose
    && s'.status.goalId == s.status.goalId && s'.status.goalPose == s.status.goalPose
    && s'.status.goalGps == s.status.goalGps && s'.status.goalDistance == s.status.goalDistance
    && s'.status.startGps == s.status.startGps
  }

  /** Steps between phases that make the same demands. */
  predicate SameDemands(st: TripState, st': TripState) {
    || st == st'
    || (Querying(st) && Querying(st'))
    || (Committed(st) && Committed(st'))
    || (st == INITIALIZING_IN_MAP && st' == IDLE)
  }

  lemma SameCoreInv(m: Resolver, s: Ctrl, s': Ctrl)
    requires Inv(m, s) && SameCore(s, s') && SameDemands(s.status.state, s'.status.state)
    ensures Inv(m, s')
  {
  }

  lemma WaitRouteInv(e: Env, s: Ctrl, now: int)
    requires Inv(e.m, s) && s.status.state == QUERY_WAITING_ROUTE
    ensures Inv(e.m, TickWaitRoute(e, s, now))
  {
    if s.inbox.routeState == Some(SET) || now - s.clock.enteredAt < e.t.routeTimeout {
      SameCoreInv(e.m, s, TickWaitRoute(e, s, now));
    } else {
      var s1 := Republish(s, now, 2000, Goal(s.status.goalPose));
      FailQueryInv(e.m, s1, now, RouteTimeout(s.query.leg, s.status.startId, s.status.goalId));
    }
  }

  lemma WaitLocalisationInv(e: Env, s: Ctrl, now: int)
    requires Inv(e.m, s) && s.status.state == QUERY_WAITING_LOCALISATION
    ensures Inv(e.m, TickWaitLocalisation(e, s, now))
  {
    if Localised(s) || now - s.clock.enteredAt < e.t.locTimeout {
      SameCoreInv(e.m, s, TickWaitLocalisation(e, s, now));
    } else {
      FailQueryInv(e.m, Republish(s, now, 1000, InitialPose(s.status.startPose)),
                   now, LocalisationTimeout(s.query.leg));
    }
  }

  lemma ReadEtaInv(e: Env, s: Ctrl, now: int)
    requires Sound(e.m) && Inv(e.m, s) && s.status.state == QUERY_READING_ETA
    ensures Inv(e.m, TickReadEta(e, s, now))
  {
    if s.query.etaReceived || now - s.clock.enteredAt >= e.t.etaSettle {
      var s1 := if s.query.etaReceived then s else WithoutEta(s);
      SameCoreInv(e.m, s, s1);
      if s.query.leg.Pickup? {
        FinishPickupInv(e, s1, now);
      } else {
        FinishTripInv(e.m, s1, now);
      }
    }
  }

  lemma TickQueryInv(e: Env, s: Ctrl, now: int)
    requires Sound(e.m) && Inv(e.m, s) && Querying(s.status.state)
    ensures Inv(e.m, TickQuery(e, s, now))
  {
    match s.status.state
    case QUERY_WAITING_LOCALISATION => WaitLocalisationInv(e, s, now);
    case QUERY_WAITING_ROUTE => WaitRouteInv(e, s, now);
    case QUERY_READING_ETA => ReadEtaInv(e, s, now);
    case _ => SameCoreInv(e.m, s, TickQuery(e, s, now));
  }

  lemma AcceptTripInv(e: Env, s: Ctrl, now: int)
    requires Sound(e.m) && Inv(e.m, s) && s.status.state == ROUTES_READY
    ensures var r := AcceptTrip(e, s, now, s.bank.pickup.value);
      Inv(e.m, r.0) && r.1 && r.0.status.state == WAITING_FOR_PICKUP_START
  {
    LookupFacts(e.m, s.cache, OfId(s.bank.pickup.value.goalLane));
  }

  lemma StartTripInv(e: Env, s: Ctrl, now: int)
    requires Sound(e.m) && Inv(e.m, s)
    ensures Inv(e.m, DoStartTrip(e, s, now).0)
    ensures DoStartTrip(e, s, now).1 <==> s.status.state == ROUTES_READY
    ensures DoStartTrip(e, s, now).0.status.state ==
      if s.status.state == ROUTES_READY then WAITING_FOR_PICKUP_START else s.status.state
  {
    var s1 := s.(engagingForPickup := true, inbox := s.inbox.(routeState := None));
    SameCoreInv(e.m, s, s1);
    if s.status.state == ROUTES_READY {
      AcceptTripInv(e, s1, now);
    }
  }

  lemma MoveInv(e: Env, s: Ctrl, now: int)
    requires Sound(e.m) && Inv(e.m, s)
    ensures Inv(e.m, DoMove(e, s, now).0)
    ensures DoMove(e, s, now).1 <==> s.status.state == WAITING_FOR_MOVE
    ensures DoMove(e, s, now).0.status.state == if s.status.state == WAITING_FOR_MOVE then ENGAGING else s.status.state
  {
    if s.status.state == WAITING_FOR_MOVE {
      LookupFacts(e.m, s.cache, FromLane(s.bank.trip.value.goalGps, s.status.startId.id));
    }
  }

  lemma TickDriveInv(m: Resolver, s: Ctrl, now: int, ready: bool)
    requires Inv(m, s)
    ensures Inv(m, TickDrive(s, now, ready))
  {
    SameCoreInv(m, s, TickDrive(s, now, ready));
  }

  lemma TickInv(e: Env, s: Ctrl, now: int, ready: bool)
    requires Sound(e.m) && Inv(e.m, s)
    ensures Inv(e.m, DoTick(e, s, now, ready))
  {
    match s.status.state
    case INITIALIZING_IN_MAP => SameCoreInv(e.m, s, DoTick(e, s, now, ready));
    case PUBLISHING_INITIAL_POSE => SameCoreInv(e.m, s, DoTick(e, s, now, ready));
    case WAITING_LOCALISATION => SameCoreInv(e.m, s, DoTick(e, s, now, ready));
    case ENGAGING => TickDriveInv(e.m, s, now, ready);
    case DRIVING_TO_PICKUP => TickDriveInv(e.m, s, now, ready);
    case RUNNING => TickDriveInv(e.m, s, now, ready);
    case _ =>
      if Querying(s.status.state) {
        TickQueryInv(e, s, now);
      }
  }

  lemma RepliedInv(m: Resolver, r: (Ctrl, bool))
    requires Inv(m, r.0)
    ensures Inv(m, Replied(r))
  {
    SameCoreInv(m, r.0, Replied(r));
  }

  lemma MoveCommandInv(e: Env, s: Ctrl, now: int)
    requires Sound(e.m) && Inv(e.m, s)
    ensures Inv(e.m, DoMoveCommand(e, s, now).0)
  {
    if s.status.state == WAITING_FOR_MOVE {
      MoveInv(e, s, now);
    } else {
      SameCoreInv(e.m, s, DoMoveCommand(e, s, now).0);
    }
  }

  lemma CancelInv(m: Resolver, s: Ctrl, now: int)
    requires Inv(m, s)
    ensures Inv(m, DoCancel(s, now))
  {
  }

  lemma StepTickInv(e: Env, s: Ctrl, now: int, pose: Option<Gps>, ready: bool)
    requires Sound(e.m) && Inv(e.m, s)
    ensures Inv(e.m, Step(e, s, now, Tick(pose, ready)))
  {
    SameCoreInv(e.m, s, SetCurrentGps(s, pose));
    TickInv(e, SetCurrentGps(s, pose), now, ready);
  }

  predicate IsMessage(ev: Event) {
    ev.LocMessage? || ev.RouteStateMessage? || ev.ModeMessage? || ev.RouteMessage?
    || ev.EtaMessage? || ev.EngageAccepted?
  }

  lemma StepMessageInv(e: Env, s: Ctrl, now: int, ev: Event)
    requires Inv(e.m, s) && IsMessage(ev)
    ensures Inv(e.m, Step(e, s, now, ev))
  {
    SameCoreInv(e.m, s, Step(e, s, now, ev));
  }

  lemma StepCommandInv(e: Env, s: Ctrl, now: int, ev: Event)
    requires Sound(e.m) && Inv(e.m, s) && !IsMessage(ev) && !ev.Tick?
    ensures Inv(e.m, Step(e, s, now, ev))
  {
    match ev
    case QueryEta(start, goal, cb, pose) => QueryEtaInv(e, s, now, start, goal, cb, pose);
    case StartTrip =>
      StartTripInv(e, s, now);
      RepliedInv(e.m, DoStartTrip(e, s, now));
    case GoToPickup =>
      SameCoreInv(e.m, s, DoGoToPickup(s, now).0);
      RepliedInv(e.m, DoGoToPickup(s, now));
    case MoveCommand =>
      MoveCommandInv(e, s, now);
      RepliedInv(e.m, DoMoveCommand(e, s, now));
    case Move =>
      MoveInv(e, s, now);
      RepliedInv(e.m, DoMove(e, s, now));
    case Cancel => CancelInv(e.m, s, now);
  }

  lemma StepInv(e: Env, s: Ctrl, now: int, ev: Event)
    requires Sound(e.m) && Inv(e.m, s)
    ensures Inv(e.m, Step(e, s, now, ev))
  {
    if ev.Tick? {
      StepTickInv(e, s, now, ev.pose, ev.servicesReady);
    } else if IsMessage(ev) {
      StepMessageInv(e, s, now, ev);
    } else {
      StepCommandInv(e, s, now, ev);
    }
  }

  lemma BootInv(m: Resolver, startGps: Option<Gps>, now: int)
    requires Sound(m)
    ensures Inv(m, Boot(m, startGps, now))
  {
    if startGps.Some? {
      LookupFacts(m, [], AtGps(startGps.value));
    }
  }

  /** Every reachable state satisfies the invariant: on a fixed map no run enters FAILED, nothing
      throws, and the bank is filled exactly as far as the phase says. */
  lemma {:induction false} InvAt(e: Env, r: Run, i: nat)
    requires IsRun(e, r) && i <= |r.evs|
    ensures Inv(e.m, r.states[i])
  {
    if i == 0 {
      BootInv(e.m, r.startGps, r.t0);
    } else {
      InvAt(e, r, i - 1);
      assert StepAt(e, r, i - 1);
      StepInv(e, r.states[i-1], r.evs[i-1].now, r.evs[i-1].ev);
    }
  }

  /** FAILED is dead: in no run does a trip fail or an exception escape, and in ROUTES_READY startTrip
      succeeds, in WAITING_FOR_MOVE move succeeds. */
  lemma TripsNeverFail(e: Env, r: Run, i: nat, now: int)
    requires IsRun(e, r) && i <= |r.evs|
    ensures var s := r.states[i];
      && s.status.state != FAILED && s.status.state != CANCELLED && !s.fault
      && (DoStartTrip(e, s, now).1 <==> s.status.state == ROUTES_READY)
      && (DoMove(e, s, now).1 <==> s.status.state == WAITING_FOR_MOVE)
  {
    InvAt(e, r, i);
    StartTripInv(e, r.states[i], now);
    MoveInv(e, r.states[i], now);
  }

  // ---- runs as sequences of events ----

  /** Handling the events one after another. */
  function Exec(e: Env, s: Ctrl, evs: seq<Timed>): Ctrl {
    if evs == [] then s
    else Step(e, Exec(e, s, evs[..|evs|-1]), evs[|evs|-1].now, evs[|evs|-1].ev)
  }

  lemma ExecSnoc(e: Env, s: Ctrl, evs: seq<Timed>, i: nat)
    requires i < |evs|
    ensures Exec(e, s, evs[..i + 1]) == Step(e, Exec(e, s, evs[..i]), evs[i].now, evs[i].ev)
  {
    assert evs[..i + 1][..i] == evs[..i];
  }

  /** Whatever events arrive after boot, handling them is a run, and it ends where Exec says. */
  lemma ExecIsRun(e: Env, startGps: Option<Gps>, t0: int, evs: seq<Timed>) returns (r: Run)
    requires Sound(e.m)
    ensures IsRun(e, r) && r.startGps == startGps && r.t0 == t0 && r.evs == evs
    ensures r.states[|evs|] == Exec(e, Boot(e.m, startGps, t0), evs)
  {
    var s := Boot(e.m, startGps, t0);
    r := Run(startGps, t0, seq(|evs| + 1, i requires 0 <= i <= |evs| => Exec(e, s, evs[..i])), evs);
    forall i | 0 <= i < |evs|
      ensures StepAt(e, r, i)
    {
      ExecSnoc(e, s, evs, i);
    }
    assert evs[..|evs|] == evs;
  }

  // ---- one more event ----

  function Now(r: Run): Ctrl
    requires |r.states| > 0
  {
    r.states[|r.states|-1]
  }

  /** r' is the run r with one more event. */
  ghost predicate Grows(e: Env, r: Run, r': Run, now: int, ev: Event)
    requires |r.states| == |r.evs| + 1
  {
    && IsRun(e, r') && r'.startGps == r.startGps && r'.t0 == r.t0
    && r'.evs == r.evs + [Timed(now, ev)] && r'.states == r.states + [Now(r')]
  }

  lemma Extended(e: Env, r: Run, now: int, ev: Event) returns (r': Run)
    requires IsRun(e, r)
    ensures Grows(e, r, r', now, ev)
  {
    var s' := Step(e, Now(r), now, ev);
    r' := Run(r.startGps, r.t0, r.states + [s'], r.evs + [Timed(now, ev)]);
    forall i | 0 <= i < |r'.evs|
      ensures StepAt(e, r', i)
    {
      assert i < |r.evs| ==> StepAt(e, r, i);
    }
  }
}
