/** How a run got where it is: the order of a trip's phases, the freshness of the messages it acts
    on, and the leg the vehicle is driving. */
module History {
  import opened Base
  import opened Resolvers
  import opened TripSpec
  import opened Runs
  import opened Steps

  function At(r: Run, i: nat): TripState
    requires i < |r.states|
  {
    r.states[i].status.state
  }

  /** All states after index j, up to i, satisfy p. */
  ghost predicate Always(r: Run, p: Ctrl -> bool, j: int, i: int)
    requires -1 <= j <= i < |r.states|
  {
    forall k :: j < k <= i ==> p(r.states[k])
  }

  /** The step by which the run entered the states p that it is in at i. */
  lemma {:induction false} EntryOf(r: Run, p: Ctrl -> bool, i: nat) returns (j: nat)
    requires i < |r.states| && p(r.states[i]) && !p(r.states[0])
    ensures j < i && !p(r.states[j]) && Always(r, p, j, i)
  {
    if p(r.states[i-1]) {
      j := EntryOf(r, p, i - 1);
    } else {
      j := i - 1;
    }
  }

  /** The same for phases, which most arguments are about. */
  ghost predicate Throughout(r: Run, p: TripState -> bool, j: int, i: int)
    requires -1 <= j <= i < |r.states|
  {
    forall k :: j < k <= i ==> p(At(r, k))
  }

  lemma Entry(r: Run, p: TripState -> bool, i: nat) returns (j: nat)
    requires i < |r.states| && p(At(r, i)) && !p(At(r, 0))
    ensures j < i && !p(At(r, j)) && Throughout(r, p, j, i)
  {
    j := EntryOf(r, (s: Ctrl) => p(s.status.state), i);
  }

  /** The phase at boot. */
  lemma StartPhase(e: Env, r: Run)
    requires IsRun(e, r)
    ensures At(r, 0) == INITIALIZING_IN_MAP || At(r, 0) == IDLE
  {
  }

  // ---- single facts of a step, for the arguments below ----

  /** The phase graph alone. */
  predicate PhaseEdge(st: TripState, ev: Event, pickup: bool, st': TripState) {
    || (ev.Cancel? && st' == IDLE)
    || match st
       case INITIALIZING_IN_MAP => st' == IDLE
       case IDLE => ev.QueryEta? && st' == QUERY_PUBLISHING_INITIAL_POSE
       case QUERY_PUBLISHING_INITIAL_POSE => ev.Tick? && st' == QUERY_WAITING_LOCALISATION
       case QUERY_WAITING_LOCALISATION => ev.Tick? && (st' == QUERY_PUBLISHING_GOAL || st' == IDLE)
       case QUERY_PUBLISHING_GOAL => ev.Tick? && st' == QUERY_WAITING_ROUTE
       case QUERY_WAITING_ROUTE => ev.Tick? && (st' == QUERY_READING_ETA || st' == IDLE)
       case QUERY_READING_ETA =>
         ev.Tick? && (st' == QUERY_PUBLISHING_INITIAL_POSE || st' == ROUTES_READY || st' == IDLE)
       case ROUTES_READY => ev.StartTrip? && st' == WAITING_FOR_PICKUP_START
       case WAITING_FOR_PICKUP_START => (ev.GoToPickup? || ev.MoveCommand?) && st' == PUBLISHING_INITIAL_POSE
       case PUBLISHING_INITIAL_POSE => ev.Tick? && st' == WAITING_LOCALISATION
       case WAITING_LOCALISATION => ev.Tick? && st' == ENGAGING
       case ENGAGING => ev.EngageAccepted? && st' == (if pickup then DRIVING_TO_PICKUP else RUNNING)
       case DRIVING_TO_PICKUP => ev.Tick? && st' == WAITING_FOR_MOVE
       case WAITING_FOR_MOVE => (ev.Move? || ev.MoveCommand?) && st' == ENGAGING
       case RUNNING => ev.Tick? && st' == COMPLETED
       case _ => false
  }

  lemma PhaseAt(e: Env, r: Run, i: nat)
    requires IsRun(e, r) && i < |r.evs|
    ensures At(r, i + 1) != At(r, i) ==> PhaseEdge(At(r, i), r.evs[i].ev, r.states[i].engagingForPickup, At(r, i + 1))
    ensures r.evs[i].ev.Cancel? ==> At(r, i + 1) == IDLE
  {
    FactsAt(e, r, i);
  }

  lemma FlagAt(e: Env, r: Run, i: nat)
    requires IsRun(e, r) && i < |r.evs|
    ensures EngagingAfter(r.states[i], r.evs[i].ev, r.states[i+1])
  {
    FactsAt(e, r, i);
  }

  lemma MailboxAt(e: Env, r: Run, i: nat)
    requires IsRun(e, r) && i < |r.evs|
    ensures MailboxAfter(r.states[i], r.evs[i].ev, r.states[i+1])
  {
    FactsAt(e, r, i);
  }

  /** What a message-triggered step found in the mailbox. */
  lemma TriggerAt(e: Env, r: Run, i: nat)
    requires IsRun(e, r) && i < |r.evs| && Triggered(r, i)
    ensures r.states[i].inbox.routeState == Some(NeededBy(At(r, i))) && r.evs[i].ev.Tick?
  {
    FactsAt(e, r, i);
  }

  /** A step that a route-state message triggers. */
  ghost predicate Triggered(r: Run, i: nat)
    requires |r.states| == |r.evs| + 1 && i < |r.evs|
  {
    || (At(r, i) == QUERY_WAITING_ROUTE && At(r, i + 1) == QUERY_READING_ETA)
    || (At(r, i) == DRIVING_TO_PICKUP && At(r, i + 1) == WAITING_FOR_MOVE)
    || (At(r, i) == RUNNING && At(r, i + 1) == COMPLETED)
  }

  function NeededBy(st: TripState): RouteState {
    if st == QUERY_WAITING_ROUTE then SET else ARRIVED
  }

  // ---- the mailbox ----

  ghost predicate IsRouteState(r: Run, k: nat, x: RouteState)
    requires k < |r.evs|
  {
    r.evs[k].ev == RouteStateMessage(x)
  }

  /** Message m, carrying x, is the last route-state message before step i. */
  ghost predicate LastMessage(r: Run, m: nat, x: RouteState, i: nat)
    requires m < i <= |r.evs|
  {
    IsRouteState(r, m, x) && forall k :: m < k < i ==> !r.evs[k].ev.RouteStateMessage?
  }

  /** A mailbox that was empty at j and holds x at i was filled by a message in between. */
  lemma {:induction false} FilledSince(e: Env, r: Run, j: nat, i: nat, x: RouteState) returns (m: nat)
    requires IsRun(e, r) && j <= i <= |r.evs| && |r.states| == |r.evs| + 1
    requires r.states[j].inbox.routeState == None && r.states[i].inbox.routeState == Some(x)
    ensures j <= m < i && LastMessage(r, m, x, i)
  {
    MailboxAt(e, r, i - 1);
    if r.evs[i-1].ev.RouteStateMessage? {
      m := i - 1;
    } else {
      m := FilledSince(e, r, j, i - 1, x);
    }
  }

  predicate WaitingRoute(st: TripState) { st == QUERY_WAITING_ROUTE }

  /** The SET that ends a route wait came after this leg's goal was published. */
  lemma RouteSetIsFresh(e: Env, r: Run, i: nat) returns (p: nat, m: nat)
    requires IsRun(e, r) && i < |r.evs| && At(r, i) == QUERY_WAITING_ROUTE && At(r, i + 1) == QUERY_READING_ETA
    ensures p < m < i && At(r, p) == QUERY_PUBLISHING_GOAL && Throughout(r, WaitingRoute, p, i)
    ensures r.states[p+1].inbox.routeState == None
    ensures LastMessage(r, m, SET, i)
  {
    StartPhase(e, r);
    p := Entry(r, WaitingRoute, i);
    PhaseAt(e, r, p);
    MailboxAt(e, r, p);
    TriggerAt(e, r, i);
    m := FilledSince(e, r, p + 1, i, SET);
  }

  // ---- which leg is being driven ----

  predicate BeforeEngaging(st: TripState) {
    st == WAITING_FOR_PICKUP_START || st == PUBLISHING_INITIAL_POSE || st == WAITING_LOCALISATION
  }

  /** From the accepted startTrip until the pickup drive is engaged the flag says pickup. */
  lemma {:induction false} FlagSaysPickup(e: Env, r: Run, i: nat)
    requires IsRun(e, r) && i <= |r.evs| && BeforeEngaging(At(r, i))
    ensures r.states[i].engagingForPickup
  {
    StartPhase(e, r);
    if BeforeEngaging(At(r, i - 1)) {
      FlagSaysPickup(e, r, i - 1);
    }
    FlagBeforeEngaging(e, r, i - 1);
  }

  lemma FlagBeforeEngaging(e: Env, r: Run, i: nat)
    requires IsRun(e, r) && i < |r.evs| && BeforeEngaging(At(r, i + 1))
    requires BeforeEngaging(At(r, i)) ==> r.states[i].engagingForPickup
    ensures r.states[i+1].engagingForPickup
  {
    PhaseAt(e, r, i);
    FlagAt(e, r, i);
  }

  predicate Engaging(st: TripState) { st == ENGAGING }

  ghost predicate StrayStartTrip(r: Run, j: nat, i: nat)
    requires j <= i <= |r.evs|
  {
    exists k :: j <= k < i && r.evs[k].ev.StartTrip?
  }

  /** The leg flag while engaging, exactly: it says pickup if and only if the pickup leg is the one
      engaged, or a startTrip was handled since the move command. */
  lemma FlagWhileEngaging(e: Env, r: Run, i: nat) returns (j: nat)
    requires IsRun(e, r) && i <= |r.evs| && At(r, i) == ENGAGING
    ensures j < i && Throughout(r, Engaging, j, i)
    ensures At(r, j) == WAITING_LOCALISATION || At(r, j) == WAITING_FOR_MOVE
    ensures r.states[i].engagingForPickup <==> At(r, j) == WAITING_LOCALISATION || StrayStartTrip(r, j + 1, i)
  {
    StartPhase(e, r);
    j := Entry(r, Engaging, i);
    PhaseAt(e, r, j);
    FlagAt(e, r, j);
    if At(r, j) == WAITING_LOCALISATION {
      FlagSaysPickup(e, r, j);
    }
    FlagDuring(e, r, j, i);
  }

  lemma {:induction false} FlagDuring(e: Env, r: Run, j: nat, i: nat)
    requires IsRun(e, r) && j < i <= |r.evs| && Throughout(r, Engaging, j, i)
    ensures r.states[i].engagingForPickup <==> r.states[j+1].engagingForPickup || StrayStartTrip(r, j + 1, i)
  {
    if i > j + 1 {
      FlagDuring(e, r, j, i - 1);
      FlagAt(e, r, i - 1);
      PhaseAt(e, r, i - 1);
      if r.evs[i-1].ev.StartTrip? {
        assert StrayStartTrip(r, j + 1, i);
      } else if StrayStartTrip(r, j + 1, i) {
        var k :| j + 1 <= k < i && r.evs[k].ev.StartTrip?;
        assert StrayStartTrip(r, j + 1, i - 1);
      }
    }
  }

  /** The flag can name the wrong leg: a startTrip handled while the trip leg is being engaged is
      refused, yet the accepted engagement is then taken for the drive to the pickup. */
  lemma StrayStartTripMislabels(e: Env, s: Ctrl, now: int)
    requires Sound(e.m) && Inv(e.m, s) && s.status.state == ENGAGING && !s.engagingForPickup
    ensures Step(e, s, now, EngageAccepted).status.state == RUNNING
    ensures var s1 := Step(e, s, now, StartTrip);
      s1.log == s.log + [Reply(false)] && Step(e, s1, now, EngageAccepted).status.state == DRIVING_TO_PICKUP
  {
  }

  // ---- the order of a trip ----

  predicate InTripDrive(st: TripState) { st == RUNNING || st == COMPLETED }

  predicate InTripLeg(st: TripState) { st == ENGAGING || st == RUNNING || st == COMPLETED }

  predicate AtPickup(st: TripState) { st == WAITING_FOR_MOVE }

  predicate InPickupDrive(st: TripState) { st == DRIVING_TO_PICKUP }

  predicate Engaged(st: TripState) {
    st == ENGAGING || st == DRIVING_TO_PICKUP || st == WAITING_FOR_MOVE || st == RUNNING || st == COMPLETED
  }

  predicate Under(st: TripState) {
    Committed(st) && st != WAITING_FOR_PICKUP_START
  }

  /** How the trip drive was entered: from engaging, with the flag naming the trip. */
  lemma TripDriveEntry(e: Env, r: Run, i: nat) returns (v: nat, x: nat)
    requires IsRun(e, r) && i <= |r.evs| && InTripDrive(At(r, i))
    ensures v < x < i && Throughout(r, InTripDrive, x, i) && Throughout(r, InTripLeg, v, i)
    ensures At(r, x) == ENGAGING && At(r, x + 1) == RUNNING && r.evs[x].ev.EngageAccepted?
    ensures At(r, v) == WAITING_FOR_MOVE && At(r, v + 1) == ENGAGING && (r.evs[v].ev.Move? || r.evs[v].ev.MoveCommand?)
    ensures r.states[v+1].inbox.routeState == None
  {
    StartPhase(e, r);
    x := Entry(r, InTripDrive, i);
    PhaseAt(e, r, x);
    v := FlagWhileEngaging(e, r, x);
    PhaseAt(e, r, v);
    MailboxAt(e, r, v);
  }

  /** How the pickup was reached: an ARRIVED on a drive engaged with the flag naming the pickup. */
  lemma PickupEntry(e: Env, r: Run, i: nat) returns (d: nat, a: nat)
    requires IsRun(e, r) && i <= |r.evs| && AtPickup(At(r, i))
    ensures d < a < i && Throughout(r, AtPickup, a, i) && Throughout(r, InPickupDrive, d, a)
    ensures At(r, d) == ENGAGING && r.evs[d].ev.EngageAccepted? && At(r, d + 1) == DRIVING_TO_PICKUP
    ensures At(r, a) == DRIVING_TO_PICKUP && r.evs[a].ev.Tick? && r.states[a].inbox.routeState == Some(ARRIVED)
  {
    StartPhase(e, r);
    a := Entry(r, AtPickup, i);
    PhaseAt(e, r, a);
    TriggerAt(e, r, a);
    d := Entry(r, InPickupDrive, a);
    PhaseAt(e, r, d);
  }

  /** The drive to the pickup was engaged from the localisation wait. */
  lemma EngagedEntry(e: Env, r: Run, i: nat) returns (n: nat)
    requires IsRun(e, r) && i <= |r.evs| && Engaged(At(r, i))
    ensures n < i && Throughout(r, Engaged, n, i)
    ensures At(r, n) == WAITING_LOCALISATION && At(r, n + 1) == ENGAGING
  {
    StartPhase(e, r);
    n := Entry(r, Engaged, i);
    PhaseAt(e, r, n);
  }

  /** How the trip was ordered: goToPickup emptied the mailbox. */
  lemma OrderEntry(e: Env, r: Run, i: nat) returns (g: nat)
    requires IsRun(e, r) && i <= |r.evs| && Under(At(r, i))
    ensures g < i && Throughout(r, Under, g, i)
    ensures At(r, g) == WAITING_FOR_PICKUP_START && (r.evs[g].ev.GoToPickup? || r.evs[g].ev.MoveCommand?)
    ensures At(r, g + 1) == PUBLISHING_INITIAL_POSE && r.states[g+1].inbox.routeState == None
  {
    StartPhase(e, r);
    g := Entry(r, Under, i);
    PhaseAt(e, r, g);
    MailboxAt(e, r, g);
  }

  /** How the drive was set up: startTrip in ROUTES_READY, then goToPickup. */
  lemma SetUpEntry(e: Env, r: Run, i: nat) returns (q: nat, g: nat)
    requires IsRun(e, r) && i <= |r.evs| && Under(At(r, i))
    ensures q < g < i && Throughout(r, Under, g, i) && Throughout(r, Committed, q, i)
    ensures At(r, q) == ROUTES_READY && r.evs[q].ev.StartTrip? && At(r, q + 1) == WAITING_FOR_PICKUP_START
    ensures At(r, g) == WAITING_FOR_PICKUP_START && (r.evs[g].ev.GoToPickup? || r.evs[g].ev.MoveCommand?)
    ensures At(r, g + 1) == PUBLISHING_INITIAL_POSE && r.states[g+1].inbox.routeState == None
  {
    g := OrderEntry(e, r, i);
    StartPhase(e, r);
    q := Entry(r, Committed, i);
    PhaseAt(e, r, q);
  }

  /** The steps that led to the pickup: startTrip, goToPickup, engaging, driving, arrived. */
  datatype PickupSteps = PickupSteps(started: nat, ordered: nat, engaging: nat, driving: nat, arrived: nat)

  ghost predicate PickupInOrder(r: Run, p: PickupSteps, v: nat)
    requires |r.states| == |r.evs| + 1 && v <= |r.evs|
  {
    && p.started < p.ordered < p.engaging < p.driving < p.arrived < v
    && At(r, p.started) == ROUTES_READY && r.evs[p.started].ev.StartTrip?
    && At(r, p.ordered) == WAITING_FOR_PICKUP_START && At(r, p.ordered + 1) == PUBLISHING_INITIAL_POSE
    && At(r, p.engaging) == WAITING_LOCALISATION && At(r, p.engaging + 1) == ENGAGING
    && At(r, p.driving) == ENGAGING && At(r, p.driving + 1) == DRIVING_TO_PICKUP
    && At(r, p.arrived) == DRIVING_TO_PICKUP && At(r, p.arrived + 1) == WAITING_FOR_MOVE
    && r.states[p.arrived].inbox.routeState == Some(ARRIVED)
  }

  /** How the run came to wait at the pickup. */
  lemma PickupHistory(e: Env, r: Run, v: nat) returns (p: PickupSteps)
    requires IsRun(e, r) && v <= |r.evs| && AtPickup(At(r, v))
    ensures PickupInOrder(r, p, v) && Throughout(r, Committed, p.started, v)
  {
    var d, a := PickupEntry(e, r, v);
    assert AtPickup(At(r, a + 1));
    var q, g, n := EngagedHistory(e, r, d);
    p := PickupSteps(q, g, n, d, a);
    CommittedToPickup(r, q, d, a, v);
  }

  /** How the run came to engage, or to be past it. */
  lemma EngagedHistory(e: Env, r: Run, i: nat) returns (q: nat, g: nat, n: nat)
    requires IsRun(e, r) && i <= |r.evs| && Engaged(At(r, i))
    ensures q < g < n < i && Throughout(r, Committed, q, i)
    ensures At(r, q) == ROUTES_READY && r.evs[q].ev.StartTrip?
    ensures At(r, g) == WAITING_FOR_PICKUP_START && At(r, g + 1) == PUBLISHING_INITIAL_POSE
    ensures At(r, n) == WAITING_LOCALISATION && At(r, n + 1) == ENGAGING
  {
    n := EngagedEntry(e, r, i);
    q, g := SetUpEntry(e, r, n);
    CommittedThen(r, Engaged, q, n, i);
  }

  lemma CommittedToPickup(r: Run, q: nat, d: nat, a: nat, v: nat)
    requires q < d < a < v < |r.states| && Throughout(r, Committed, q, d)
    requires Throughout(r, InPickupDrive, d, a) && Throughout(r, AtPickup, a, v)
    ensures Throughout(r, Committed, q, v)
  {
    CommittedThen(r, InPickupDrive, q, d, a);
    CommittedThen(r, AtPickup, q, a, v);
  }

  /** Any visit to RUNNING or COMPLETED was preceded by every milestone of the trip: those of the pickup,
      the move command at step v and the engagement at step x, in order and with no cancel in between. */
  lemma TripOrder(e: Env, r: Run, i: nat) returns (p: PickupSteps, v: nat, x: nat)
    requires IsRun(e, r) && i <= |r.evs| && InTripDrive(At(r, i))
    ensures v < x < i && PickupInOrder(r, p, v) && Throughout(r, Committed, p.started, i)
    ensures At(r, v) == WAITING_FOR_MOVE && At(r, v + 1) == ENGAGING && (r.evs[v].ev.Move? || r.evs[v].ev.MoveCommand?)
    ensures At(r, x) == ENGAGING && At(r, x + 1) == RUNNING
    ensures forall k :: p.started < k < i ==> !r.evs[k].ev.Cancel?
  {
    v, x := TripDriveEntry(e, r, i);
    p := PickupHistory(e, r, v);
    CommittedToTrip(e, r, p.started, v, i);
  }

  lemma CommittedToTrip(e: Env, r: Run, q: nat, v: nat, i: nat)
    requires IsRun(e, r) && q < v < i <= |r.evs|
    requires Throughout(r, Committed, q, v) && Throughout(r, InTripLeg, v, i)
    ensures Throughout(r, Committed, q, i) && forall k :: q < k < i ==> !r.evs[k].ev.Cancel?
  {
    CommittedThen(r, InTripLeg, q, v, i);
    NoCancelWithin(e, r, q, i);
  }

  lemma CommittedThen(r: Run, p: TripState -> bool, q: nat, n: nat, i: nat)
    requires q <= n <= i < |r.states| && Throughout(r, Committed, q, n) && Throughout(r, p, n, i)
    requires forall st :: p(st) ==> Committed(st)
    ensures Throughout(r, Committed, q, i)
  {
  }

  lemma NoCancelWithin(e: Env, r: Run, q: nat, i: nat)
    requires IsRun(e, r) && q < i <= |r.evs| && Throughout(r, Committed, q, i)
    ensures forall k :: q < k < i ==> !r.evs[k].ev.Cancel?
  {
    forall k | q < k < i
      ensures !r.evs[k].ev.Cancel?
    {
      PhaseAt(e, r, k);
      assert Committed(At(r, k + 1));
    }
  }

  // ---- freshness of arrivals ----

  /** The ARRIVED that ends the pickup drive came after goToPickup was accepted. */
  lemma PickupArrivalIsFresh(e: Env, r: Run, i: nat) returns (g: nat, m: nat)
    requires IsRun(e, r) && i < |r.evs| && At(r, i) == DRIVING_TO_PICKUP && At(r, i + 1) == WAITING_FOR_MOVE
    ensures g < m < i && At(r, g) == WAITING_FOR_PICKUP_START && At(r, g + 1) == PUBLISHING_INITIAL_POSE
    ensures Throughout(r, Under, g, i) && LastMessage(r, m, ARRIVED, i)
  {
    g := OrderEntry(e, r, i);
    TriggerAt(e, r, i);
    m := FilledSince(e, r, g + 1, i, ARRIVED);
  }

  /** The ARRIVED that completes the trip came after the move command. */
  lemma TripArrivalIsFresh(e: Env, r: Run, i: nat) returns (v: nat, m: nat)
    requires IsRun(e, r) && i < |r.evs| && At(r, i) == RUNNING && At(r, i + 1) == COMPLETED
    ensures v < m < i && At(r, v) == WAITING_FOR_MOVE && At(r, v + 1) == ENGAGING
    ensures Throughout(r, InTripLeg, v, i) && LastMessage(r, m, ARRIVED, i)
  {
    var x: nat;
    v, x := TripDriveEntry(e, r, i);
    TriggerAt(e, r, i);
    m := FilledSince(e, r, v + 1, i, ARRIVED);
  }

  /** The message behind trigger j, and the step p since which it must have come; an earlier trigger
      that lies after p can only be an arrival. */
  lemma TriggerSource(e: Env, r: Run, i: nat, j: nat) returns (p: nat, m: nat)
    requires IsRun(e, r) && i < j < |r.evs| && Triggered(r, i) && Triggered(r, j)
    ensures p < m < j && LastMessage(r, m, NeededBy(At(r, j)), j)
    ensures p != i && (p < i ==> At(r, i) != QUERY_WAITING_ROUTE)
  {
    if At(r, j) == QUERY_WAITING_ROUTE {
      p, m := RouteSetIsFresh(e, r, j);
      assert !WaitingRoute(At(r, i + 1)) ==> i <= p;
    } else if At(r, j) == DRIVING_TO_PICKUP {
      p, m := PickupArrivalIsFresh(e, r, j);
      assert p < i ==> Under(At(r, i));
    } else {
      p, m := TripArrivalIsFresh(e, r, j);
      assert p < i ==> InTripLeg(At(r, i));
    }
  }

  /** No message triggers two transitions: the one behind a later trigger arrived after the earlier. */
  lemma TriggersAreDistinct(e: Env, r: Run, i: nat, j: nat) returns (m: nat)
    requires IsRun(e, r) && i < j < |r.evs| && Triggered(r, i) && Triggered(r, j)
    ensures i < m < j && LastMessage(r, m, NeededBy(At(r, j)), j)
  {
    var p: nat;
    p, m := TriggerSource(e, r, i, j);
    if p < i {
      // the earlier trigger was then an arrival, and an arrival empties the mailbox
      MailboxAt(e, r, i);
      TriggerAt(e, r, i);
      TriggerAt(e, r, j);
      m := FilledSince(e, r, i + 1, j, NeededBy(At(r, j)));
    }
  }
}
