/** What the controller carries from phase to phase: the configured start, the vehicle's position, and the
    last localisation and mode messages. */
module Background {
  import opened Base
  import opened LaneSpec
  import opened Resolvers
  import opened TripSpec
  import opened Runs
  import opened Steps
  import opened Outputs
  import opened History

  // ---- one step ----

  /** The steps that put the status record back to its initial values. */
  predicate Resets(s: Ctrl, ev: Event, s': Ctrl) {
    || ev.Cancel?
    || (Querying(s.status.state) && !Querying(s'.status.state))
    || (ev.QueryEta? && s.status.state == IDLE && ev.pose.Some? && s'.status.state == IDLE)
  }

  function PositionAfter(s: Ctrl, ev: Event, s': Ctrl): Gps {
    if Resets(s, ev, s') then ORIGIN
    else if ev.Tick? && ev.pose.Some? then ev.pose.value
    else s.status.currentGps
  }

  predicate Carried(s: Ctrl, ev: Event, s': Ctrl) {
    && s'.start == s.start && s'.initPose == s.initPose
    && s'.inbox.locState == (if ev.LocMessage? then Some(ev.loc) else s.inbox.locState)
    && s'.inbox.lastRoute == (if ev.RouteMessage? then Some(ev.msg) else s.inbox.lastRoute)
    && s'.inbox.modeAvailable == (if ev.ModeMessage? then Some(ev.available) else s.inbox.modeAvailable)
    && s'.status.currentGps == PositionAfter(s, ev, s')
  }

  /** The fields that only a message or the boot changes. */
  predicate SameBackground(s: Ctrl, s': Ctrl) {
    && s'.start == s.start && s'.initPose == s.initPose
    && s'.inbox.locState == s.inbox.locState && s'.inbox.modeAvailable == s.inbox.modeAvailable
    && s'.inbox.lastRoute == s.inbox.lastRoute
  }

  lemma FailQueryCarries(s: Ctrl, now: int, reason: QueryError)
    ensures var s' := FailQuery(s, now, reason);
      SameBackground(s, s') && s'.status.state == IDLE && s'.status.currentGps == ORIGIN
  {
  }

  lemma LegFromCarries(e: Env, s: Ctrl, now: int, a: LaneInfo, to: Gps)
    requires Sound(e.m) && e.m.ok(s.cache) && e.m.onMap(a.id) && s.status.state != QUERY_PUBLISHING_INITIAL_POSE
    ensures var s' := LegFrom(e, s, now, a, to);
      && SameBackground(s, s')
      && if s'.status.state == IDLE then s'.status.currentGps == ORIGIN
         else s'.status.state == QUERY_PUBLISHING_INITIAL_POSE && s'.status.currentGps == s.status.currentGps
  {
    LookupFacts(e.m, s.cache, FromLane(to, a.id));
    var m := e.m.connected(s.cache, to, a.id);
    if m.answer.Missing? {
      var n := e.m.nearest(m.cache, to);
      FailQueryCarries(s.(cache := n.cache), now, Unreached(n.answer, a.id));
    }
  }

  lemma QueryEtaCarries(e: Env, s: Ctrl, now: int, ev: Event)
    requires Sound(e.m) && Inv(e.m, s) && ev.QueryEta?
    ensures Carried(s, ev, Step(e, s, now, ev))
  {
    if s.status.state == IDLE && ev.pose.Some? {
      var s1 := s.(query := Asked(s.query, ev.start, ev.goal, ev.cb), bank := EMPTY_BANK);
      LookupFacts(e.m, s.cache, AtGps(ev.pose.value));
      var l := StartLane(e, s1, ev.pose.value);
      if l.answer.Found? {
        LegFromCarries(e, s1.(cache := l.cache), now, l.answer.info, ev.start);
      } else {
        FailQueryCarries(s1.(cache := l.cache), now, NoOriginLane(Pickup));
      }
    }
  }

  lemma FinishPickupCarries(e: Env, s: Ctrl, now: int)
    requires Sound(e.m) && e.m.ok(s.cache) && PickupLegInv(e.m, s) && s.query.leg.Pickup?
    requires s.status.state == QUERY_READING_ETA
    ensures Carried(s, Tick(None, true), FinishPickupLeg(e, s, now))
  {
    var id := s.status.goalId.id;
    LookupFacts(e.m, s.cache, OfId(id));
    var s1 := ClearRoute(s.(query := s.query.(result := s.query.result.(pickupLeg := LegResult(s)), leg := Trip),
                            bank := s.bank.(pickup := Some(Held(s, s.query.start, id)))));
    var l := StartLane(e, s1, s1.query.start);
    LegFromCarries(e, s1.(cache := l.cache), now, l.answer.info, s1.query.goal);
  }

  lemma ReadEtaCarries(e: Env, s: Ctrl, now: int)
    requires Sound(e.m) && Inv(e.m, s) && s.status.state == QUERY_READING_ETA
    ensures Carried(s, Tick(None, true), TickReadEta(e, s, now))
  {
    if EtaSettled(e.t, s, now) && s.query.leg.Pickup? {
      FinishPickupCarries(e, if s.query.etaReceived then s else WithoutEta(s), now);
    }
  }

  lemma TickQueryCarries(e: Env, s: Ctrl, now: int)
    requires Sound(e.m) && Inv(e.m, s) && Querying(s.status.state)
    ensures Carried(s, Tick(None, true), TickQuery(e, s, now))
  {
    match s.status.state
    case QUERY_READING_ETA => ReadEtaCarries(e, s, now);
    case QUERY_WAITING_LOCALISATION => WaitLocalisationCarries(e, s, now);
    case QUERY_WAITING_ROUTE => WaitRouteCarries(e, s, now);
    case _ =>
  }

  lemma WaitLocalisationCarries(e: Env, s: Ctrl, now: int)
    requires s.status.state == QUERY_WAITING_LOCALISATION
    ensures Carried(s, Tick(None, true), TickWaitLocalisation(e, s, now))
  {
  }

  lemma WaitRouteCarries(e: Env, s: Ctrl, now: int)
    requires s.status.state == QUERY_WAITING_ROUTE
    ensures Carried(s, Tick(None, true), TickWaitRoute(e, s, now))
  {
  }

  lemma TickSetUpCarries(e: Env, s: Ctrl, now: int, ready: bool)
    requires !Querying(s.status.state)
    requires s.status.state != ENGAGING && s.status.state != DRIVING_TO_PICKUP && s.status.state != RUNNING
    ensures Carried(s, Tick(None, true), DoTick(e, s, now, ready))
  {
  }

  lemma TickDriveCarries(e: Env, s: Ctrl, now: int, ready: bool)
    requires s.status.state == ENGAGING || s.status.state == DRIVING_TO_PICKUP || s.status.state == RUNNING
    ensures Carried(s, Tick(None, true), DoTick(e, s, now, ready))
  {
  }

  lemma TickCarries(e: Env, s: Ctrl, now: int, pose: Option<Gps>, ready: bool)
    requires Sound(e.m) && Inv(e.m, s)
    ensures Carried(s, Tick(pose, ready), Step(e, s, now, Tick(pose, ready)))
  {
    var s1 := SetCurrentGps(s, pose);
    SameCoreInv(e.m, s, s1);
    if Querying(s.status.state) {
      TickQueryCarries(e, s1, now);
    } else if s.status.state == ENGAGING || s.status.state == DRIVING_TO_PICKUP || s.status.state == RUNNING {
      TickDriveCarries(e, s1, now, ready);
    } else {
      TickSetUpCarries(e, s1, now, ready);
    }
    CarriedFromPosition(s, pose, ready, DoTick(e, s1, now, ready));
  }

  lemma CarriedFromPosition(s: Ctrl, pose: Option<Gps>, ready: bool, s': Ctrl)
    requires Carried(SetCurrentGps(s, pose), Tick(None, true), s')
    ensures Carried(s, Tick(pose, ready), s')
  {
  }

  lemma CommandCarries(e: Env, s: Ctrl, now: int, ev: Event)
    requires Sound(e.m) && Inv(e.m, s) && (ev.Move? || ev.MoveCommand? || ev.GoToPickup?)
    ensures Carried(s, ev, Step(e, s, now, ev))
  {
    if s.status.state == WAITING_FOR_MOVE {
      MoveCarries(e, s, now);
    }
  }

  lemma MoveCarries(e: Env, s: Ctrl, now: int)
    requires Sound(e.m) && Inv(e.m, s)
    ensures SameBackground(s, DoMove(e, s, now).0) && DoMove(e, s, now).0.status.currentGps == s.status.currentGps
  {
  }

  lemma StartTripCarries(e: Env, s: Ctrl, now: int)
    requires !s.fault
    ensures Carried(s, StartTrip, Step(e, s, now, StartTrip))
  {
  }

  lemma MessageCarries(e: Env, s: Ctrl, now: int, ev: Event)
    requires !s.fault && (IsMessage(ev) || ev.Cancel?)
    ensures Carried(s, ev, Step(e, s, now, ev))
  {
  }

  lemma StepCarries(e: Env, s: Ctrl, now: int, ev: Event)
    requires Sound(e.m) && Inv(e.m, s)
    ensures Carried(s, ev, Step(e, s, now, ev))
  {
    match ev
    case Tick(pose, ready) => TickCarries(e, s, now, pose, ready);
    case QueryEta(_, _, _, _) => QueryEtaCarries(e, s, now, ev);
    case StartTrip => StartTripCarries(e, s, now);
    case GoToPickup => CommandCarries(e, s, now, ev);
    case MoveCommand => CommandCarries(e, s, now, ev);
    case Move => CommandCarries(e, s, now, ev);
    case _ => MessageCarries(e, s, now, ev);
  }

  lemma CarriedAt(e: Env, r: Run, i: nat)
    requires IsRun(e, r) && i < |r.evs|
    ensures Carried(r.states[i], r.evs[i].ev, r.states[i+1])
  {
    InvAt(e, r, i);
    assert StepAt(e, r, i);
    StepCarries(e, r.states[i], r.evs[i].now, r.evs[i].ev);
  }

  // ---- the last localisation and mode messages ----

  ghost predicate IsLoc(r: Run, k: nat)
    requires k < |r.evs|
  {
    r.evs[k].ev.LocMessage?
  }

  ghost predicate LastLoc(r: Run, k: nat, i: nat)
    requires i <= |r.evs|
  {
    k < i && IsLoc(r, k) && forall l :: k < l < i ==> !IsLoc(r, l)
  }

  /** The localisation state is that of the last message, and none before the first. */
  lemma {:induction false} LocIsLast(e: Env, r: Run, i: nat) returns (k: nat)
    requires IsRun(e, r) && i <= |r.evs|
    ensures r.states[i].inbox.locState.None? ==> forall l :: 0 <= l < i ==> !IsLoc(r, l)
    ensures r.states[i].inbox.locState.Some? ==> LastLoc(r, k, i) && r.states[i].inbox.locState == Some(r.evs[k].ev.loc)
  {
    k := 0;
    if i > 0 {
      k := LocIsLast(e, r, i - 1);
      CarriedAt(e, r, i - 1);
      if IsLoc(r, i - 1) {
        k := i - 1;
      }
    }
  }

  /** The phases that wait for localisation, and where they lead. */
  function Localises(st: TripState): Option<TripState> {
    match st
    case INITIALIZING_IN_MAP => Some(IDLE)
    case QUERY_WAITING_LOCALISATION => Some(QUERY_PUBLISHING_GOAL)
    case WAITING_LOCALISATION => Some(ENGAGING)
    case _ => None
  }

  /** A tick ends a wait for localisation, at boot, in a query or before the drive, if and only if there
      was a localisation message and the last one said that the vehicle is localised. */
  lemma LocalisationIsKnown(e: Env, r: Run, i: nat)
    requires IsRun(e, r) && i < |r.evs| && r.evs[i].ev.Tick? && Localises(At(r, i)).Some?
    ensures At(r, i + 1) == Localises(At(r, i)).value
      <==> exists k: nat :: LastLoc(r, k, i) && r.evs[k].ev.loc == LOC_INITIALIZED
  {
    var k := LocIsLast(e, r, i);
    WaitEnds(e, r, i);
    if l: nat :| LastLoc(r, l, i) && r.evs[l].ev.loc == LOC_INITIALIZED {
      assert LastLoc(r, k, i) ==> k == l;
    }
  }

  lemma WaitEnds(e: Env, r: Run, i: nat)
    requires IsRun(e, r) && i < |r.evs| && r.evs[i].ev.Tick? && Localises(At(r, i)).Some?
    ensures At(r, i + 1) == Localises(At(r, i)).value <==> r.states[i].inbox.locState == Some(LOC_INITIALIZED)
  {
    FactsAt(e, r, i);
  }

  ghost predicate IsMode(r: Run, k: nat)
    requires k < |r.evs|
  {
    r.evs[k].ev.ModeMessage?
  }

  ghost predicate LastMode(r: Run, k: nat, i: nat)
    requires i <= |r.evs|
  {
    k < i && IsMode(r, k) && forall l :: k < l < i ==> !IsMode(r, l)
  }

  lemma {:induction false} ModeIsLast(e: Env, r: Run, i: nat) returns (k: nat)
    requires IsRun(e, r) && i <= |r.evs|
    ensures r.states[i].inbox.modeAvailable.None? ==> forall l :: 0 <= l < i ==> !IsMode(r, l)
    ensures r.states[i].inbox.modeAvailable.Some? ==>
      LastMode(r, k, i) && r.states[i].inbox.modeAvailable == Some(r.evs[k].ev.available)
  {
    k := 0;
    if i > 0 {
      k := ModeIsLast(e, r, i - 1);
      CarriedAt(e, r, i - 1);
      if IsMode(r, i - 1) {
        k := i - 1;
      }
    }
  }

  /** An engage request is sent only when the services are ready and no mode message, or the last one,
      says otherwise; and then it is sent. */
  lemma EngageOnlyWhenAvailable(e: Env, r: Run, i: nat, sent: bool)
    requires IsRun(e, r) && i < |r.evs|
    requires Published(r.states[i], r.evs[i].now, r.evs[i].ev, r.states[i+1]) == Some(EngageAttempt(sent))
    ensures r.evs[i].ev.Tick? && At(r, i) == ENGAGING
    ensures sent <==> r.evs[i].ev.servicesReady && forall k: nat :: LastMode(r, k, i) ==> r.evs[k].ev.available
  {
    var k := ModeIsLast(e, r, i);
    if l: nat :| LastMode(r, l, i) && !r.evs[l].ev.available {
      assert LastMode(r, k, i) ==> k == l;
    }
  }

  // ---- the configured start ----

  lemma {:induction false} StartKept(e: Env, r: Run, i: nat)
    requires IsRun(e, r) && i <= |r.evs|
    ensures r.states[i].start == r.states[0].start && r.states[i].initPose == r.states[0].initPose
  {
    if i > 0 {
      StartKept(e, r, i - 1);
      CarriedAt(e, r, i - 1);
    }
  }

  /** At boot the configured start is published, and kept; without one nothing is. */
  lemma BootPublishesStart(e: Env, r: Run)
    requires IsRun(e, r)
    ensures r.startGps.None? <==> r.states[0].start.None?
    ensures r.startGps.None? ==> r.states[0].log == [] && At(r, 0) == IDLE
    ensures r.startGps.Some? ==>
      var p := r.states[0].start.value;
      && r.states[0].log == [InitialPose(p), Notify(IDLE, INITIALIZING_IN_MAP)]
      && r.states[0].initPose == p && At(r, 0) == INITIALIZING_IN_MAP
  {
  }

  /** Every initial pose published outside a query, while initialising, after goToPickup and while waiting
      for localisation, and the one published on a cancel, is the configured start. */
  lemma InitialPoseIsStart(e: Env, r: Run, i: nat, p: Pose)
    requires IsRun(e, r) && i < |r.evs| && r.startGps.Some? && (r.evs[i].ev.Cancel? || !Querying(At(r, i)))
    requires Published(r.states[i], r.evs[i].now, r.evs[i].ev, r.states[i+1]) == Some(InitialPose(p))
    ensures r.states[0].start == Some(p)
  {
    BootPublishesStart(e, r);
    StartKept(e, r, i);
  }

  // ---- the vehicle's position ----

  ghost predicate ResetAt(r: Run, k: nat)
    requires k < |r.evs| < |r.states|
  {
    Resets(r.states[k], r.evs[k].ev, r.states[k+1])
  }

  ghost predicate PositionAt(r: Run, k: nat)
    requires k < |r.evs|
  {
    r.evs[k].ev.Tick? && r.evs[k].ev.pose.Some?
  }

  /** The position of the last tick that had one, or the origin since the last reset. */
  ghost function LastPosition(r: Run, i: nat): Gps
    requires i <= |r.evs| < |r.states|
  {
    if i == 0 || ResetAt(r, i - 1) then ORIGIN
    else if PositionAt(r, i - 1) then r.evs[i-1].ev.pose.value
    else LastPosition(r, i - 1)
  }

  lemma {:induction false} PositionIsLast(e: Env, r: Run, i: nat)
    requires IsRun(e, r) && i <= |r.evs|
    ensures r.states[i].status.currentGps == LastPosition(r, i)
  {
    if i > 0 {
      PositionIsLast(e, r, i - 1);
      CarriedAt(e, r, i - 1);
    }
  }
}
