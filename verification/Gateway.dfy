/** What the application reports to the gateway, and what the gateway may conclude from it. */
module Gateway {
  import opened Base
  import opened TripSpec
  import opened Runs
  import opened Steps
  import opened Outputs
  import opened History
  import opened Quotes
  import opened StreamClients

  function Fare(distance: real, seconds: real): real {
    5.0 + distance / 1000.0 * 2.0 + seconds / 60.0 * 0.5
  }

  /** The trip-state callback. */
  function OnPhase(next: TripState): seq<VehicleEvent> {
    match next
    case WAITING_FOR_MOVE => [TripInitAck, Arrive, StatusReport(ARRIVED_AT_PICKUP)]
    case RUNNING => [StatusReport(IN_PROGRESS)]
    case COMPLETED => [Arrive, StatusReport(TRIP_COMPLETED)]
    case FAILED => [StatusReport(TRIP_ERROR)]
    case _ => []
  }

  /** The query callback: only a success is reported, with the time of both legs and the fare of the trip. */
  function OnQuote(r: EtaQueryResult): seq<VehicleEvent> {
    if r.success
    then [Eta(r.pickupLeg.seconds + r.tripLeg.seconds, Fare(r.tripLeg.distance, r.tripLeg.seconds))]
    else []
  }

  function Announce(o: Output): seq<VehicleEvent> {
    match o
    case Notify(_, next) => OnPhase(next)
    case Fire(_, r) => OnQuote(r)
    case _ => []
  }

  /** Everything the strand has enqueued. */
  function AnnounceAll(log: seq<Output>): seq<VehicleEvent> {
    if log == [] then [] else AnnounceAll(log[..|log|-1]) + Announce(log[|log|-1])
  }

  // ---- what the gateway counts ----

  datatype Tally = Tally(completed: nat, inProgress: nat, arrived: nat, etas: nat)

  function Add(t: Tally, e: VehicleEvent): Tally {
    match e
    case StatusReport(TRIP_COMPLETED) => t.(completed := t.completed + 1)
    case StatusReport(IN_PROGRESS) => t.(inProgress := t.inProgress + 1)
    case StatusReport(ARRIVED_AT_PICKUP) => t.(arrived := t.arrived + 1)
    case Eta(_, _) => t.(etas := t.etas + 1)
    case _ => t
  }

  function TallyOf(h: seq<VehicleEvent>): Tally {
    if h == [] then Tally(0, 0, 0, 0) else Add(TallyOf(h[..|h|-1]), h[|h|-1])
  }

  /** The tally of everything the strand has enqueued so far. */
  function Told(s: Ctrl): Tally {
    TallyOf(AnnounceAll(s.log))
  }

  function AnnounceOption(o: Option<Output>): seq<VehicleEvent> {
    if o.Some? then Announce(o.value) else []
  }

  lemma AnnounceSnoc(log: seq<Output>, o: Option<Output>)
    ensures AnnounceAll(Snoc(log, o)) == AnnounceAll(log) + AnnounceOption(o)
  {
    if o.Some? {
      assert (log + [o.value])[..|log|] == log;
    }
  }

  lemma SilentSnoc(log: seq<Output>, o: Option<Output>)
    requires AnnounceOption(o) == []
    ensures AnnounceAll(Snoc(log, o)) == AnnounceAll(log)
  {
    AnnounceSnoc(log, o);
  }

  lemma AnnounceSnocs(log: seq<Output>, p: Option<Output>, f: Option<Output>, n: Option<Output>, y: Option<Output>)
    requires AnnounceOption(p) == [] && AnnounceOption(y) == []
    ensures AnnounceAll(Snoc(Snoc(Snoc(Snoc(log, p), f), n), y))
         == AnnounceAll(log) + AnnounceOption(f) + AnnounceOption(n)
  {
    SilentSnoc(log, p);
    AnnounceSnoc(Snoc(log, p), f);
    AnnounceSnoc(Snoc(Snoc(log, p), f), n);
    SilentSnoc(Snoc(Snoc(Snoc(log, p), f), n), y);
  }

  lemma PublishedUnannounced(s: Ctrl, now: int, ev: Event, s': Ctrl)
    ensures AnnounceOption(Published(s, now, ev, s')) == [] && AnnounceOption(Answers(s, ev)) == []
  {
  }

  // ---- the steps that enqueue something ----

  predicate Moves(r: Run, i: nat, from: TripState, to: TripState)
    requires |r.states| == |r.evs| + 1 && i < |r.evs|
  {
    At(r, i) == from && At(r, i + 1) == to
  }

  predicate Arrival(r: Run, i: nat)
    requires |r.states| == |r.evs| + 1 && i < |r.evs|
  {
    Moves(r, i, DRIVING_TO_PICKUP, WAITING_FOR_MOVE)
  }

  predicate Quote(r: Run, i: nat)
    requires |r.states| == |r.evs| + 1 && i < |r.evs|
  {
    Moves(r, i, QUERY_READING_ETA, ROUTES_READY)
  }

  /** The four kinds of steps, by what they enqueue. */
  ghost predicate StepEnqueues(r: Run, i: nat, xs: seq<VehicleEvent>)
    requires |r.states| == |r.evs| + 1 && i < |r.evs|
  {
    if Arrival(r, i) then xs == [TripInitAck, Arrive, StatusReport(ARRIVED_AT_PICKUP)]
    else if Moves(r, i, ENGAGING, RUNNING) then xs == [StatusReport(IN_PROGRESS)]
    else if Moves(r, i, RUNNING, COMPLETED) then xs == [Arrive, StatusReport(TRIP_COMPLETED)]
    else if Quote(r, i) && r.states[i].query.cb.Some? then xs == [EtaReport(r.states[i+1].query.result)]
    else xs == []
  }

  /** The time of both legs, and the fare of the trip: a base charge, and rates per kilometre and minute. */
  function EtaReport(q: EtaQueryResult): VehicleEvent {
    Eta(q.pickupLeg.seconds + q.tripLeg.seconds,
        5.0 + q.tripLeg.distance / 1000.0 * 2.0 + q.tripLeg.seconds / 60.0 * 0.5)
  }

  lemma AnnouncedAt(e: Env, r: Run, i: nat)
    requires IsRun(e, r) && i < |r.evs|
    ensures AnnounceAll(r.states[i+1].log)
         == AnnounceAll(r.states[i].log) + AnnounceOption(Fired(r.states[i], r.evs[i].ev, r.states[i+1]))
            + AnnounceOption(Noted(r.states[i], r.evs[i].ev, r.states[i+1]))
  {
    SendsAt(e, r, i);
    var s, now, ev, s' := r.states[i], r.evs[i].now, r.evs[i].ev, r.states[i+1];
    PublishedUnannounced(s, now, ev, s');
    AnnounceSnocs(s.log, Published(s, now, ev, s'), Fired(s, ev, s'), Noted(s, ev, s'), Answers(s, ev));
  }

  /** Only the callback that ends a successful query is announced. */
  lemma FiredAnnounced(e: Env, r: Run, i: nat)
    requires IsRun(e, r) && i < |r.evs|
    ensures var fired := AnnounceOption(Fired(r.states[i], r.evs[i].ev, r.states[i+1]));
      if Quote(r, i) && r.states[i].query.cb.Some? then fired == [EtaReport(r.states[i+1].query.result)]
      else fired == []
  {
    SendsAt(e, r, i);
    PhaseAt(e, r, i);
  }

  lemma NotedAnnounced(e: Env, r: Run, i: nat)
    requires IsRun(e, r) && i < |r.evs|
    ensures var noted := AnnounceOption(Noted(r.states[i], r.evs[i].ev, r.states[i+1]));
      if Arrival(r, i) then noted == [TripInitAck, Arrive, StatusReport(ARRIVED_AT_PICKUP)]
      else if Moves(r, i, ENGAGING, RUNNING) then noted == [StatusReport(IN_PROGRESS)]
      else if Moves(r, i, RUNNING, COMPLETED) then noted == [Arrive, StatusReport(TRIP_COMPLETED)]
      else noted == []
  {
    PhaseAt(e, r, i);
    NotFailedAt(e, r, i + 1);
  }

  lemma NotFailedAt(e: Env, r: Run, i: nat)
    requires IsRun(e, r) && i <= |r.evs|
    ensures At(r, i) != FAILED
  {
    InvAt(e, r, i);
  }

  lemma StepAnnounces(e: Env, r: Run, i: nat) returns (xs: seq<VehicleEvent>)
    requires IsRun(e, r) && i < |r.evs|
    ensures AnnounceAll(r.states[i+1].log) == AnnounceAll(r.states[i].log) + xs && StepEnqueues(r, i, xs)
  {
    var fired := AnnounceOption(Fired(r.states[i], r.evs[i].ev, r.states[i+1]));
    var noted := AnnounceOption(Noted(r.states[i], r.evs[i].ev, r.states[i+1]));
    xs := fired + noted;
    AnnouncedAt(e, r, i);
    FiredAnnounced(e, r, i);
    NotedAnnounced(e, r, i);
    Regrouped(AnnounceAll(r.states[i].log), fired, noted);
  }

  lemma Regrouped(h: seq<VehicleEvent>, fired: seq<VehicleEvent>, noted: seq<VehicleEvent>)
    ensures h + fired + noted == h + (fired + noted)
    ensures fired + [] == fired && [] + noted == noted
  {
    assert fired + [] == fired && [] + noted == noted;
  }

  /** The stays in which the two legs of the query that step i ends waited for their ETAs. */
  ghost predicate EtaStays(r: Run, a: nat, j: nat, b: nat, i: nat)
    requires i < |r.evs| < |r.states|
  {
    && a < j < b < i && At(r, a) == QUERY_WAITING_ROUTE && At(r, b) == QUERY_WAITING_ROUTE
    && Throughout(r, Reading, a, j) && Throughout(r, Reading, b, i)
    && PickupQuery(r.states[j]) && TripQuery(r.states[i])
  }

  lemma QuotedStays(e: Env, r: Run, i: nat) returns (j: nat, a: nat, b: nat)
    requires IsRun(e, r) && i < |r.evs| && Quote(r, i)
    ensures EtaStays(r, a, j, b, i)
    ensures FiguresOf(r, r.states[i+1].query.result.pickupLeg, a, j)
    ensures FiguresOf(r, r.states[i+1].query.result.tripLeg, b, i)
  {
    var k: nat;
    k, j, a, b := SuccessfulQuote(e, r, i);
  }

  lemma QuoteAnnounced(e: Env, r: Run, i: nat)
    requires IsRun(e, r) && i < |r.evs| && Quote(r, i) && r.states[i].query.cb.Some?
    ensures AnnounceAll(r.states[i+1].log) == AnnounceAll(r.states[i].log) + [EtaReport(r.states[i+1].query.result)]
  {
    var _ := StepAnnounces(e, r, i);
  }

  /** The ETA report of every successful query: its time is the sum of the last ETA seconds injected while
      each leg waited for its own, from step a to j and from b to i, or zero for a leg that got none; its
      fare is that of the trip leg's last ETA. */
  lemma EtaReportOfRun(e: Env, r: Run, i: nat)
    returns (a: nat, j: nat, b: nat, toPickup: real, distance: real, seconds: real)
    requires IsRun(e, r) && i < |r.evs| && Quote(r, i) && r.states[i].query.cb.Some?
    ensures EtaStays(r, a, j, b, i)
    ensures LastFigures(r, a, j, r.states[i+1].query.result.pickupLeg.distance, toPickup)
    ensures LastFigures(r, b, i, distance, seconds)
    ensures AnnounceAll(r.states[i+1].log) == AnnounceAll(r.states[i].log)
      + [Eta(toPickup + seconds, 5.0 + distance / 1000.0 * 2.0 + seconds / 60.0 * 0.5)]
  {
    j, a, b := QuotedStays(e, r, i);
    QuoteAnnounced(e, r, i);
    var q := r.states[i+1].query.result;
    toPickup, distance, seconds := q.pickupLeg.seconds, q.tripLeg.distance, q.tripLeg.seconds;
  }

  // ---- the tally along a run ----

  predicate Uncounted(e: VehicleEvent) {
    !e.Eta? && !e.StatusReport?
  }

  /** Of a group enqueued by one step only the last event is counted. */
  ghost predicate LastCounts(xs: seq<VehicleEvent>) {
    forall k :: 0 <= k < |xs| - 1 ==> Uncounted(xs[k])
  }

  function AddLast(t: Tally, xs: seq<VehicleEvent>): Tally {
    if xs == [] then t else Add(t, xs[|xs|-1])
  }

  lemma {:induction false} TallyConcat(h: seq<VehicleEvent>, xs: seq<VehicleEvent>, m: nat)
    requires LastCounts(xs) && m <= |xs|
    ensures TallyOf(h + xs[..m]) == if m == |xs| then AddLast(TallyOf(h), xs) else TallyOf(h)
  {
    if m == 0 {
      assert h + xs[..0] == h;
    } else {
      TallyConcat(h, xs, m - 1);
      assert (h + xs[..m])[..|h| + m - 1] == h + xs[..m - 1];
    }
  }

  lemma TallyWithin(h: seq<VehicleEvent>, xs: seq<VehicleEvent>, n: nat)
    requires LastCounts(xs) && |h| < n <= |h + xs|
    ensures TallyOf((h + xs)[..n]) == if n == |h + xs| then AddLast(TallyOf(h), xs) else TallyOf(h)
  {
    TallyConcat(h, xs, n - |h|);
    assert (h + xs)[..n] == h + xs[..n - |h|];
  }

  /** What step i adds to the tally. */
  function TallyAfter(t: Tally, r: Run, i: nat): Tally
    requires |r.states| == |r.evs| + 1 && i < |r.evs|
  {
    if Arrival(r, i) then t.(arrived := t.arrived + 1)
    else if Moves(r, i, ENGAGING, RUNNING) then t.(inProgress := t.inProgress + 1)
    else if Moves(r, i, RUNNING, COMPLETED) then t.(completed := t.completed + 1)
    else if Quote(r, i) && r.states[i].query.cb.Some? then t.(etas := t.etas + 1)
    else t
  }

  lemma GroupCounts(r: Run, i: nat, xs: seq<VehicleEvent>, t: Tally)
    requires |r.states| == |r.evs| + 1 && i < |r.evs| && StepEnqueues(r, i, xs)
    ensures LastCounts(xs) && AddLast(t, xs) == TallyAfter(t, r, i)
  {
  }

  lemma TallyAt(e: Env, r: Run, i: nat) returns (xs: seq<VehicleEvent>)
    requires IsRun(e, r) && i < |r.evs|
    ensures AnnounceAll(r.states[i+1].log) == AnnounceAll(r.states[i].log) + xs && LastCounts(xs)
    ensures Told(r.states[i+1]) == AddLast(Told(r.states[i]), xs) == TallyAfter(Told(r.states[i]), r, i)
  {
    xs := StepAnnounces(e, r, i);
    GroupCounts(r, i, xs, Told(r.states[i]));
    TallyConcat(AnnounceAll(r.states[i].log), xs, |xs|);
    assert xs[..|xs|] == xs;
  }

  lemma SilentPair(x: Output, y: Output)
    requires AnnounceOption(Some(x)) == [] && AnnounceOption(Some(y)) == []
    ensures AnnounceAll([x, y]) == []
  {
    AnnounceSnoc([], Some(x));
    AnnounceSnoc([x], Some(y));
    assert [x] + [y] == [x, y];
  }

  lemma BootAnnouncesNothing(e: Env, r: Run)
    requires IsRun(e, r)
    ensures AnnounceAll(r.states[0].log) == []
  {
    var log := r.states[0].log;
    if log != [] {
      SilentPair(log[0], log[1]);
      assert log == [log[0], log[1]];
    }
  }

  // ---- the accounts ----

  /** A quote was given and its pickup has not been reached yet, or the trip is mistaken for such a drive. */
  predicate AwaitsPickup(s: Ctrl) {
    match s.status.state
    case ROUTES_READY | WAITING_FOR_PICKUP_START | PUBLISHING_INITIAL_POSE | WAITING_LOCALISATION
       | DRIVING_TO_PICKUP => true
    case ENGAGING => s.engagingForPickup
    case _ => false
  }

  /** A pickup was reached and its trip has not been engaged yet. */
  predicate AwaitsTrip(s: Ctrl) {
    s.status.state == WAITING_FOR_MOVE || (s.status.state == ENGAGING && !s.engagingForPickup)
  }

  predicate Driving(s: Ctrl) {
    s.status.state == RUNNING
  }

  /** A startTrip handled while the trip leg is being engaged. */
  predicate TurnsOver(r: Run, i: nat)
    requires i < |r.evs| < |r.states|
  {
    r.evs[i].ev.StartTrip? && At(r, i) == ENGAGING && !r.states[i].engagingForPickup
  }

  /** A successful query whose caller gave no callback. */
  predicate Unreported(r: Run, i: nat)
    requires |r.states| == |r.evs| + 1 && i < |r.evs|
  {
    Quote(r, i) && r.states[i].query.cb.None?
  }

  predicate Drops(r: Run, i: nat, p: Ctrl -> bool)
    requires i < |r.evs| < |r.states|
  {
    r.evs[i].ev.Cancel? && p(r.states[i])
  }

  /** How often, so far, a startTrip turned a trip leg over, a quote went unreported, and a cancel came
      between quote and pickup, between pickup and trip, and during the trip. */
  datatype Ledger = Ledger(
    turned: nat, unreported: nat, quotesDropped: nat, pickupsDropped: nat, drivesDropped: nat)

  ghost function Entered(l: Ledger, r: Run, i: nat): Ledger
    requires |r.states| == |r.evs| + 1 && i < |r.evs|
  {
    Ledger(l.turned + One(TurnsOver(r, i)), l.unreported + One(Unreported(r, i)),
           l.quotesDropped + One(Drops(r, i, AwaitsPickup)),
           l.pickupsDropped + One(Drops(r, i, AwaitsTrip)),
           l.drivesDropped + One(Drops(r, i, Driving)))
  }

  ghost function LedgerOf(r: Run, i: nat): Ledger
    requires |r.states| == |r.evs| + 1 && i <= |r.evs|
  {
    if i == 0 then Ledger(0, 0, 0, 0, 0) else Entered(LedgerOf(r, i - 1), r, i - 1)
  }

  /** Every quote, arrival and trip is accounted for. */
  predicate Balanced(t: Tally, l: Ledger, s: Ctrl) {
    && t.etas + l.unreported + l.turned == t.arrived + l.quotesDropped + One(AwaitsPickup(s))
    && t.arrived == t.inProgress + l.turned + l.pickupsDropped + One(AwaitsTrip(s))
    && t.inProgress == t.completed + l.drivesDropped + One(Driving(s))
  }

  lemma PickupsAt(e: Env, r: Run, i: nat)
    requires IsRun(e, r) && i < |r.evs|
    ensures One(AwaitsPickup(r.states[i])) + One(Quote(r, i)) + One(TurnsOver(r, i))
         == One(AwaitsPickup(r.states[i+1])) + One(Arrival(r, i)) + One(Drops(r, i, AwaitsPickup))
  {
    PhaseAt(e, r, i);
    FlagAt(e, r, i);
    if BeforeEngaging(At(r, i)) {
      FlagSaysPickup(e, r, i);
    }
  }

  lemma TripsAt(e: Env, r: Run, i: nat)
    requires IsRun(e, r) && i < |r.evs|
    ensures One(AwaitsTrip(r.states[i])) + One(Arrival(r, i))
         == One(AwaitsTrip(r.states[i+1])) + One(Moves(r, i, ENGAGING, RUNNING)) + One(TurnsOver(r, i))
            + One(Drops(r, i, AwaitsTrip))
    ensures One(Driving(r.states[i])) + One(Moves(r, i, ENGAGING, RUNNING))
         == One(Driving(r.states[i+1])) + One(Moves(r, i, RUNNING, COMPLETED)) + One(Drops(r, i, Driving))
  {
    PhaseAt(e, r, i);
    FlagAt(e, r, i);
    if BeforeEngaging(At(r, i)) {
      FlagSaysPickup(e, r, i);
    }
  }

  lemma BalanceKept(r: Run, i: nat, t: Tally, l: Ledger)
    requires |r.states| == |r.evs| + 1 && i < |r.evs| && Balanced(t, l, r.states[i])
    requires One(AwaitsPickup(r.states[i])) + One(Quote(r, i)) + One(TurnsOver(r, i))
          == One(AwaitsPickup(r.states[i+1])) + One(Arrival(r, i)) + One(Drops(r, i, AwaitsPickup))
    requires One(AwaitsTrip(r.states[i])) + One(Arrival(r, i))
          == One(AwaitsTrip(r.states[i+1])) + One(Moves(r, i, ENGAGING, RUNNING)) + One(TurnsOver(r, i))
             + One(Drops(r, i, AwaitsTrip))
    requires One(Driving(r.states[i])) + One(Moves(r, i, ENGAGING, RUNNING))
          == One(Driving(r.states[i+1])) + One(Moves(r, i, RUNNING, COMPLETED)) + One(Drops(r, i, Driving))
    ensures Balanced(TallyAfter(t, r, i), Entered(l, r, i), r.states[i+1])
  {
  }

  lemma BalanceAt(e: Env, r: Run, i: nat, l: Ledger)
    requires IsRun(e, r) && i < |r.evs| && Balanced(Told(r.states[i]), l, r.states[i])
    ensures Balanced(Told(r.states[i+1]), Entered(l, r, i), r.states[i+1])
  {
    var _ := TallyAt(e, r, i);
    PickupsAt(e, r, i);
    TripsAt(e, r, i);
    BalanceKept(r, i, Told(r.states[i]), l);
  }

  lemma BalancedAtBoot(e: Env, r: Run)
    requires IsRun(e, r)
    ensures Balanced(Told(r.states[0]), LedgerOf(r, 0), r.states[0])
  {
    BootAnnouncesNothing(e, r);
    StartPhase(e, r);
  }

  /** In every run the reports balance: ETA reports, unreported quotes and turned-over trips make up the
      arrivals, the cancelled quotes and the pending pickup; and so on down to COMPLETED. */
  lemma {:induction false} Accounts(e: Env, r: Run, i: nat)
    requires IsRun(e, r) && i <= |r.evs|
    ensures Balanced(Told(r.states[i]), LedgerOf(r, i), r.states[i])
  {
    if i == 0 {
      BalancedAtBoot(e, r);
    } else {
      Accounts(e, r, i - 1);
      BalanceAt(e, r, i - 1, LedgerOf(r, i - 1));
    }
  }

  // ---- prefixes of the enqueue history ----

  /** Within one step's events. */
  lemma PrefixAt(e: Env, r: Run, i: nat, n: nat) returns (k: nat)
    requires IsRun(e, r) && i < |r.evs|
    requires |AnnounceAll(r.states[i].log)| < n <= |AnnounceAll(r.states[i+1].log)|
    ensures i <= k <= i + 1 && TallyOf(AnnounceAll(r.states[i+1].log)[..n]) == Told(r.states[k])
  {
    var xs := TallyAt(e, r, i);
    TallyWithin(AnnounceAll(r.states[i].log), xs, n);
    k := if n == |AnnounceAll(r.states[i+1].log)| then i + 1 else i;
  }

  lemma SamePrefix(h: seq<VehicleEvent>, longer: seq<VehicleEvent>, n: nat)
    requires n <= |h| && h <= longer
    ensures longer[..n] == h[..n]
  {
  }

  lemma AnnouncesMore(e: Env, r: Run, i: nat)
    requires IsRun(e, r) && i < |r.evs|
    ensures AnnounceAll(r.states[i].log) <= AnnounceAll(r.states[i+1].log)
  {
    var xs := StepAnnounces(e, r, i);
    PrefixOf(AnnounceAll(r.states[i].log), xs);
  }

  lemma PrefixOf(h: seq<VehicleEvent>, xs: seq<VehicleEvent>)
    ensures h <= h + xs
  {
  }

  ghost predicate GrowsAt(hs: seq<seq<VehicleEvent>>, j: nat)
    requires j + 1 < |hs|
  {
    hs[j] <= hs[j+1]
  }

  lemma {:induction false} GrowingPrefix(hs: seq<seq<VehicleEvent>>, k: nat, i: nat)
    requires k <= i < |hs| && forall j :: 0 <= j < |hs| - 1 ==> GrowsAt(hs, j)
    ensures hs[k] <= hs[i]
  {
    if k < i {
      GrowingPrefix(hs, k, i - 1);
      assert GrowsAt(hs, i - 1);
    }
  }

  lemma AnnouncedGrows(e: Env, r: Run, k: nat, i: nat)
    requires IsRun(e, r) && k <= i <= |r.evs|
    ensures AnnounceAll(r.states[k].log) <= AnnounceAll(r.states[i].log)
  {
    var hs := seq(|r.states|, j requires 0 <= j < |r.states| => AnnounceAll(r.states[j].log));
    forall j | 0 <= j < |hs| - 1
      ensures GrowsAt(hs, j)
    {
      AnnouncesMore(e, r, j);
    }
    GrowingPrefix(hs, k, i);
  }

  /** The first state whose events reach to n. */
  lemma {:induction false} FirstReaching(r: Run, i: nat, n: nat) returns (k: nat)
    requires i < |r.states| && n <= |AnnounceAll(r.states[i].log)|
    ensures k <= i && n <= |AnnounceAll(r.states[k].log)|
    ensures k > 0 ==> |AnnounceAll(r.states[k-1].log)| < n
  {
    k := i;
    if i > 0 && n <= |AnnounceAll(r.states[i-1].log)| {
      k := FirstReaching(r, i - 1, n);
    }
  }

  lemma PrefixReached(e: Env, r: Run, j: nat, n: nat) returns (k: nat)
    requires IsRun(e, r) && j <= |r.evs| && n <= |AnnounceAll(r.states[j].log)|
    requires j > 0 ==> |AnnounceAll(r.states[j-1].log)| < n
    ensures k <= j && TallyOf(AnnounceAll(r.states[j].log)[..n]) == Told(r.states[k])
  {
    if j == 0 {
      PrefixAtBoot(e, r, n);
      k := 0;
    } else {
      k := PrefixAt(e, r, j - 1, n);
    }
  }

  lemma PrefixAtBoot(e: Env, r: Run, n: nat)
    requires IsRun(e, r) && n <= |AnnounceAll(r.states[0].log)|
    ensures TallyOf(AnnounceAll(r.states[0].log)[..n]) == Told(r.states[0])
  {
    BootAnnouncesNothing(e, r);
  }

  /** Whatever part of a step's events has been enqueued, the gateway's tally is that of some state. */
  lemma PrefixState(e: Env, r: Run, i: nat, n: nat) returns (k: nat)
    requires IsRun(e, r) && i <= |r.evs| && n <= |AnnounceAll(r.states[i].log)|
    ensures k <= i && TallyOf(AnnounceAll(r.states[i].log)[..n]) == Told(r.states[k])
  {
    var j := FirstReaching(r, i, n);
    AnnouncedGrows(e, r, j, i);
    SamePrefix(AnnounceAll(r.states[j].log), AnnounceAll(r.states[i].log), n);
    k := PrefixReached(e, r, j, n);
  }

  /** The gateway has been told of no more arrivals than ETA reports. */
  ghost predicate ArrivalsQuoted(h: seq<VehicleEvent>, n: nat)
    requires n <= |h|
  {
    TallyOf(h[..n]).arrived <= TallyOf(h[..n]).etas
  }

  /** The trips turned over and the quotes unreported so far are made up for by cancelled quotes and the
      pending pickup. */
  ghost predicate Covered(r: Run, k: nat)
    requires |r.states| == |r.evs| + 1 && k <= |r.evs|
  {
    LedgerOf(r, k).turned + LedgerOf(r, k).unreported <= LedgerOf(r, k).quotesDropped + One(AwaitsPickup(r.states[k]))
  }

  /** Exactly when the gateway is told, at every moment, of no more arrivals than ETA reports. */
  lemma ArrivalsCovered(e: Env, r: Run, i: nat)
    requires IsRun(e, r) && i <= |r.evs|
    ensures var h := AnnounceAll(r.states[i].log);
      (forall n :: 0 <= n <= |h| ==> ArrivalsQuoted(h, n)) <==> (forall k :: 0 <= k <= i ==> Covered(r, k))
  {
    var h := AnnounceAll(r.states[i].log);
    if forall k :: 0 <= k <= i ==> Covered(r, k) {
      forall n | 0 <= n <= |h|
        ensures ArrivalsQuoted(h, n)
      {
        var k := PrefixState(e, r, i, n);
        Accounts(e, r, k);
        assert Covered(r, k);
      }
    }
    if forall n :: 0 <= n <= |h| ==> ArrivalsQuoted(h, n) {
      forall k | 0 <= k <= i
        ensures Covered(r, k)
      {
        var n := |AnnounceAll(r.states[k].log)|;
        AnnouncedGrows(e, r, k, i);
        Accounts(e, r, k);
        assert h[..n] == AnnounceAll(r.states[k].log) && ArrivalsQuoted(h, n);
      }
    }
  }

  // ---- disciplined runs ----

  /** No trip is turned over and no quote goes unreported. */
  ghost predicate Disciplined(r: Run)
    requires |r.states| == |r.evs| + 1
  {
    forall i :: 0 <= i < |r.evs| ==> DisciplinedAt(r, i)
  }

  ghost predicate DisciplinedAt(r: Run, i: nat)
    requires |r.states| == |r.evs| + 1 && i < |r.evs|
  {
    !TurnsOver(r, i) && !Unreported(r, i)
  }

  lemma {:induction false} DisciplinedLedger(r: Run, i: nat)
    requires |r.states| == |r.evs| + 1 && Disciplined(r) && i <= |r.evs|
    ensures LedgerOf(r, i).turned == LedgerOf(r, i).unreported == 0
  {
    if i > 0 {
      DisciplinedLedger(r, i - 1);
      assert DisciplinedAt(r, i - 1);
    }
  }

  ghost predicate CallsBackAt(r: Run, k: nat)
    requires k < |r.evs|
  {
    r.evs[k].ev.QueryEta? ==> r.evs[k].ev.cb.Some?
  }

  /** All queries come with a callback, as those of the application do. */
  ghost predicate HasCallbacks(r: Run) {
    forall k :: 0 <= k < |r.evs| ==> CallsBackAt(r, k)
  }

  ghost predicate CallbackSince(r: Run, i: nat)
    requires i < |r.states|
  {
    Querying(At(r, i)) ==> r.states[i].query.cb.Some?
  }

  lemma CallbackKeptAt(e: Env, r: Run, i: nat)
    requires IsRun(e, r) && i < |r.evs| && CallsBackAt(r, i) && CallbackSince(r, i)
    ensures CallbackSince(r, i + 1)
  {
    FactsAt(e, r, i);
  }

  /** With callbacks throughout no quote goes unreported. */
  lemma {:induction false} QueriesHaveCallbacks(e: Env, r: Run, i: nat)
    requires IsRun(e, r) && HasCallbacks(r) && i <= |r.evs|
    ensures CallbackSince(r, i) && (i < |r.evs| ==> !Unreported(r, i))
  {
    if i == 0 {
      StartPhase(e, r);
    } else {
      QueriesHaveCallbacks(e, r, i - 1);
      assert CallsBackAt(r, i - 1);
      CallbackKeptAt(e, r, i - 1);
    }
  }

  // ---- the enqueue history ----

  /** What the reader thread and the location reports enqueue themselves. */
  predicate FromReader(e: VehicleEvent) {
    e.TripCancelAck? || e.OrderUpdateLocationAck? || e.Location? || e == StatusReport(TRIP_CANCELLED)
  }

  /** h merges the strand's events a, in their order, with any events of the reader thread. */
  predicate Merges(h: seq<VehicleEvent>, a: seq<VehicleEvent>)
    decreases |h|
  {
    if h == [] then a == []
    else
      var n := |h| - 1;
      if FromReader(h[n]) then Merges(h[..n], a)
      else a != [] && h[n] == a[|a|-1] && Merges(h[..n], a[..|a|-1])
  }

  lemma {:induction false} MergeTally(h: seq<VehicleEvent>, a: seq<VehicleEvent>)
    requires Merges(h, a)
    ensures TallyOf(h) == TallyOf(a)
  {
    if h != [] {
      var n := |h| - 1;
      MergeTally(h[..n], if FromReader(h[n]) then a else a[..|a|-1]);
    }
  }

  /** At every moment of every run, whatever the reader thread has enqueued in between, the gateway has
      been told COMPLETED at most as often as IN_PROGRESS, and that at most as often as
      ARRIVED_AT_PICKUP; and ARRIVED_AT_PICKUP at most as often as it was sent an ETA if and only if the
      accounts of a state at that moment are covered, as they always are in a disciplined run. */
  lemma GatewayHistory(e: Env, r: Run, i: nat, n: nat, h: seq<VehicleEvent>) returns (k: nat)
    requires IsRun(e, r) && i <= |r.evs| && n <= |AnnounceAll(r.states[i].log)|
    requires Merges(h, AnnounceAll(r.states[i].log)[..n])
    ensures TallyOf(h).completed <= TallyOf(h).inProgress <= TallyOf(h).arrived
    ensures k <= i && TallyOf(h) == Told(r.states[k])
    ensures TallyOf(h).arrived <= TallyOf(h).etas <==> Covered(r, k)
    ensures Disciplined(r) ==> TallyOf(h).arrived <= TallyOf(h).etas
  {
    MergeTally(h, AnnounceAll(r.states[i].log)[..n]);
    k := PrefixState(e, r, i, n);
    Accounts(e, r, k);
    if Disciplined(r) {
      DisciplinedLedger(r, k);
    }
  }

  // ---- startTrip commands ----

  /** How many startTrip commands were handled before state i. */
  ghost function StartTrips(r: Run, i: nat): nat
    requires i <= |r.evs|
  {
    if i == 0 then 0 else StartTrips(r, i - 1) + One(r.evs[i-1].ev.StartTrip?)
  }

  /** A startTrip was handled whose drive has not been reported as an arrival yet. */
  predicate StartPending(s: Ctrl) {
    AwaitsPickup(s) && s.status.state != ROUTES_READY
  }

  lemma StartPendingAt(e: Env, r: Run, i: nat)
    requires IsRun(e, r) && i < |r.evs|
    ensures One(Arrival(r, i)) + One(StartPending(r.states[i+1]))
         <= One(StartPending(r.states[i])) + One(r.evs[i].ev.StartTrip?)
  {
    PhaseAt(e, r, i);
    FlagAt(e, r, i);
    if BeforeEngaging(At(r, i)) {
      FlagSaysPickup(e, r, i);
    }
  }

  lemma NoArrivalAtBoot(e: Env, r: Run)
    requires IsRun(e, r)
    ensures Told(r.states[0]).arrived == 0 && !StartPending(r.states[0])
  {
    BootAnnouncesNothing(e, r);
    StartPhase(e, r);
  }

  lemma ArrivalStartedAt(e: Env, r: Run, i: nat)
    requires IsRun(e, r) && i < |r.evs|
    ensures Told(r.states[i+1]).arrived + One(StartPending(r.states[i+1]))
         <= Told(r.states[i]).arrived + One(StartPending(r.states[i])) + One(r.evs[i].ev.StartTrip?)
  {
    StartPendingAt(e, r, i);
    var _ := TallyAt(e, r, i);
  }

  /** In every run each arrival has used up a startTrip of its own, the accepted one or a stray one. */
  lemma {:induction false} ArrivalsStarted(e: Env, r: Run, i: nat)
    requires IsRun(e, r) && i <= |r.evs|
    ensures Told(r.states[i]).arrived + One(StartPending(r.states[i])) <= StartTrips(r, i)
  {
    if i == 0 {
      NoArrivalAtBoot(e, r);
    } else {
      ArrivalsStarted(e, r, i - 1);
      ArrivalStartedAt(e, r, i - 1);
    }
  }

  ghost predicate PostedAt(r: Run, i: nat)
    requires |r.states| == |r.evs| + 1 && i < |r.evs|
  {
    r.evs[i].ev.StartTrip? ==> StartTrips(r, i + 1) <= Told(r.states[i]).etas
  }

  /** Each startTrip that is handled was posted by an ETA report of its own, however long ago. */
  ghost predicate PostedByReports(r: Run)
    requires |r.states| == |r.evs| + 1
  {
    forall i :: 0 <= i < |r.evs| ==> PostedAt(r, i)
  }

  lemma {:induction false} StartsReported(e: Env, r: Run, i: nat)
    requires IsRun(e, r) && PostedByReports(r) && i <= |r.evs|
    ensures StartTrips(r, i) <= Told(r.states[i]).etas
  {
    if i > 0 {
      StartsReported(e, r, i - 1);
      assert PostedAt(r, i - 1);
      EtasGrow(e, r, i - 1);
    }
  }

  lemma EtasGrow(e: Env, r: Run, i: nat)
    requires IsRun(e, r) && i < |r.evs|
    ensures Told(r.states[i]).etas <= Told(r.states[i+1]).etas
  {
    var _ := TallyAt(e, r, i);
  }

  /** Where startTrip is called by the success callback alone, as the application does, arrivals never
      outnumber ETA reports, wherever the posted commands are handled. */
  lemma PostedArrivals(e: Env, r: Run, i: nat, n: nat, h: seq<VehicleEvent>)
    requires IsRun(e, r) && PostedByReports(r) && i <= |r.evs| && n <= |AnnounceAll(r.states[i].log)|
    requires Merges(h, AnnounceAll(r.states[i].log)[..n])
    ensures TallyOf(h).arrived <= TallyOf(h).etas
  {
    var k := GatewayHistory(e, r, i, n, h);
    ArrivalsStarted(e, r, k);
    StartsReported(e, r, k);
  }

  // ---- repeated arrivals ----

  /** An arrival at step b of the trip that is still under way at step i. */
  ghost predicate EarlierArrival(r: Run, b: nat, i: nat)
    requires |r.states| == |r.evs| + 1 && i < |r.evs|
  {
    b < i && Arrival(r, b) && Throughout(r, Committed, b, i)
  }

  predicate OnTheWay(st: TripState) {
    st == ENGAGING || st == DRIVING_TO_PICKUP
  }

  /** The drive under way at step i was turned over by the startTrip of step k. */
  ghost predicate TurnedOverAt(r: Run, k: nat, i: nat)
    requires |r.states| == |r.evs| + 1 && i < |r.evs|
  {
    k < i && TurnsOver(r, k) && Throughout(r, OnTheWay, k, i)
  }

  /** An arrival repeats one of the same trip if and only if a startTrip was handled while the trip leg
      of this very drive was being engaged. */
  lemma RepeatedArrival(e: Env, r: Run, i: nat)
    requires IsRun(e, r) && i < |r.evs| && Arrival(r, i)
    ensures (exists b :: EarlierArrival(r, b, i)) <==> (exists k :: TurnedOverAt(r, k, i))
  {
    if b :| EarlierArrival(r, b, i) {
      var k := RepeatWasTurned(e, r, b, i);
      assert TurnedOverAt(r, k, i);
    }
    if k :| TurnedOverAt(r, k, i) {
      var b := TurnedRepeats(e, r, k, i);
      assert EarlierArrival(r, b, i);
    }
  }

  lemma RepeatWasTurned(e: Env, r: Run, b: nat, i: nat) returns (k: nat)
    requires IsRun(e, r) && i < |r.evs| && Arrival(r, i) && EarlierArrival(r, b, i)
    ensures TurnedOverAt(r, k, i)
  {
    StartPhase(e, r);
    var d := Entry(r, InPickupDrive, i);
    PhaseAt(e, r, d);
    var j := FlagWhileEngaging(e, r, d);
    EngagedSince(r, b, j, d, i);
    if At(r, j) == WAITING_LOCALISATION {
      NoSetUpSince(e, r, b, j);
    }
    PhaseAt(e, r, j);
    FlagAt(e, r, j);
    assert Engaging(At(r, j + 1));
    k := TurnedWhileEngaging(e, r, j, d);
    OnTheWayFrom(r, k, d, i);
  }

  /** The engagement that led to the drive at i began after the arrival at b. */
  lemma EngagedSince(r: Run, b: nat, j: nat, d: nat, i: nat)
    requires |r.states| == |r.evs| + 1 && j < d < i < |r.evs| && b < i && At(r, b + 1) == WAITING_FOR_MOVE
    requires Throughout(r, Engaging, j, d) && Throughout(r, InPickupDrive, d, i)
    ensures b < j
  {
    assert b >= j ==> Engaging(At(r, b + 1)) || InPickupDrive(At(r, b + 1));
  }

  /** A trip under way does not go back to its preparation. */
  lemma {:induction false} NoSetUpSince(e: Env, r: Run, b: nat, j: nat)
    requires IsRun(e, r) && b < j <= |r.evs| && At(r, b + 1) == WAITING_FOR_MOVE && Throughout(r, Committed, b, j)
    ensures !BeforeEngaging(At(r, j))
  {
    if j > b + 1 {
      NoSetUpSince(e, r, b, j - 1);
      PhaseAt(e, r, j - 1);
      assert Committed(At(r, j - 1));
    }
  }

  /** The first startTrip since the move command is the one that turns the flag over. */
  lemma {:induction false} TurnedWhileEngaging(e: Env, r: Run, j: nat, d: nat) returns (k: nat)
    requires IsRun(e, r) && j < d <= |r.evs| && Throughout(r, Engaging, j, d)
    requires !r.states[j+1].engagingForPickup && r.states[d].engagingForPickup
    ensures j < k < d && TurnsOver(r, k)
  {
    FlagAt(e, r, d - 1);
    assert Engaging(At(r, d));
    if r.states[d-1].engagingForPickup {
      k := TurnedWhileEngaging(e, r, j, d - 1);
    } else {
      k := d - 1;
      assert Engaging(At(r, k));
    }
  }

  lemma OnTheWayFrom(r: Run, k: nat, d: nat, i: nat)
    requires k < d < i < |r.states| && Throughout(r, Engaging, k, d) && Throughout(r, InPickupDrive, d, i)
    ensures Throughout(r, OnTheWay, k, i)
  {
    forall l | k < l <= i
      ensures OnTheWay(At(r, l))
    {
      assert Engaging(At(r, l)) || InPickupDrive(At(r, l));
    }
  }

  lemma TurnedRepeats(e: Env, r: Run, k: nat, i: nat) returns (b: nat)
    requires IsRun(e, r) && i < |r.evs| && TurnedOverAt(r, k, i)
    ensures EarlierArrival(r, b, i)
  {
    var j := FlagWhileEngaging(e, r, k);
    var d: nat;
    d, b := PickupEntry(e, r, j);
    assert AtPickup(At(r, b + 1));
    forall l | b < l <= i
      ensures Committed(At(r, l))
    {
      assert l <= j ==> AtPickup(At(r, l));
      assert j < l <= k ==> Engaging(At(r, l));
      assert k < l ==> OnTheWay(At(r, l));
    }
  }
}
