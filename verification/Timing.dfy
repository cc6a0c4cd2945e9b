/** Real-time bounds: how long a query can take and how often a waiting state publishes again. */
module Timing {
  import opened Base
  import opened TripSpec
  import opened Runs
  import opened Steps
  import opened Outputs
  import opened History

  ghost predicate NotBefore(r: Run, i: nat, j: nat)
    requires i < |r.evs| && j < |r.evs|
  {
    r.t0 <= r.evs[i].now <= r.evs[j].now
  }

  /** Events are handled in the order of their times, and none before boot. */
  ghost predicate Ordered(r: Run) {
    forall i, j :: 0 <= i <= j < |r.evs| ==> NotBefore(r, i, j)
  }

  ghost predicate NoTickBetween(r: Run, i: nat, j: nat)
    requires j <= |r.evs|
  {
    forall k :: i < k < j ==> !r.evs[k].ev.Tick?
  }

  /** Ticks come at most d ms apart: events with no tick between them are at most d ms apart. */
  ghost predicate TicksWithin(r: Run, d: int) {
    forall i: nat, j: nat :: i < j < |r.evs| && NoTickBetween(r, i, j) ==> r.evs[j].now - r.evs[i].now <= d
  }

  // ---- the measure: (leg, stage, time left) ----

  function LegBudget(t: Timings, d: int): int {
    t.locTimeout + t.routeTimeout + t.etaSettle + 5 * d
  }

  function QueryBound(t: Timings, d: int): int {
    2 * (t.locTimeout + t.routeTimeout + t.etaSettle) + 10 * d
  }

  /** How long a stage can go on after a tick has found it unfinished. */
  function StageLength(t: Timings, st: TripState): int {
    match st
    case QUERY_WAITING_LOCALISATION => t.locTimeout
    case QUERY_WAITING_ROUTE => t.routeTimeout
    case QUERY_READING_ETA => t.etaSettle
    case _ => 0
  }

  /** The time left for the query when a stage is entered. */
  function TimeLeft(t: Timings, d: int, leg: Leg, st: TripState): int {
    (if leg.Pickup? then LegBudget(t, d) else 0)
    + match st
      case QUERY_PUBLISHING_INITIAL_POSE => LegBudget(t, d)
      case QUERY_WAITING_LOCALISATION => LegBudget(t, d) - d
      case QUERY_PUBLISHING_GOAL => LegBudget(t, d) - 2 * d - t.locTimeout
      case QUERY_WAITING_ROUTE => LegBudget(t, d) - 3 * d - t.locTimeout
      case _ => t.etaSettle + d
  }

  /** One step inside a query. */
  lemma QueryStepAt(e: Env, r: Run, d: int, i: nat)
    requires IsRun(e, r) && i < |r.evs| && Querying(At(r, i)) && Querying(At(r, i + 1))
    ensures var s, s', now := r.states[i], r.states[i+1], r.evs[i].now;
      && s'.query.cb == s.query.cb
      && (At(r, i + 1) == At(r, i) ==>
            s'.clock.enteredAt == s.clock.enteredAt && s'.query.leg == s.query.leg
            && (r.evs[i].ev.Tick? ==> now - s.clock.enteredAt < StageLength(e.t, At(r, i))))
      && (At(r, i + 1) != At(r, i) ==>
            r.evs[i].ev.Tick? && s'.clock.enteredAt == now
            && TimeLeft(e.t, d, s'.query.leg, At(r, i + 1)) + StageLength(e.t, At(r, i)) + d
               == TimeLeft(e.t, d, s.query.leg, At(r, i)))
  {
    FactsAt(e, r, i);
  }

  /** Invariant of a query accepted at step q, with a the last tick (or q itself) before state i. */
  ghost predicate OnTime(e: Env, r: Run, d: int, q: nat, a: nat, i: nat)
    requires |r.states| == |r.evs| + 1 && q <= a < i <= |r.evs|
  {
    var s := r.states[i];
    && NoTickBetween(r, a, i)
    && s.clock.enteredAt <= r.evs[a].now <= s.clock.enteredAt + StageLength(e.t, At(r, i))
    && s.clock.enteredAt + TimeLeft(e.t, d, s.query.leg, At(r, i)) <= r.evs[q].now + QueryBound(e.t, d)
  }

  ghost predicate Accepted(r: Run, q: nat)
    requires |r.states| == |r.evs| + 1 && q < |r.evs|
  {
    At(r, q) == IDLE && At(r, q + 1) == QUERY_PUBLISHING_INITIAL_POSE && r.evs[q].ev.QueryEta?
  }

  ghost predicate Sane(e: Env, r: Run, d: int) {
    && IsRun(e, r) && Ordered(r) && TicksWithin(r, d) && d >= 0
    && e.t.locTimeout >= 0 && e.t.routeTimeout >= 0 && e.t.etaSettle >= 0
  }

  lemma AcceptedAt(e: Env, r: Run, q: nat)
    requires IsRun(e, r) && q < |r.evs| && Accepted(r, q)
    ensures var s := r.states[q+1];
      s.clock.enteredAt == r.evs[q].now && s.query.leg.Pickup? && s.query.cb == r.evs[q].ev.cb
  {
    FactsAt(e, r, q);
  }

  lemma AcceptedOnTime(e: Env, r: Run, d: int, q: nat)
    requires Sane(e, r, d) && q < |r.evs| && Accepted(r, q)
    ensures OnTime(e, r, d, q, q, q + 1) && r.states[q+1].query.cb == r.evs[q].ev.cb
  {
    AcceptedAt(e, r, q);
  }

  lemma OnTimeStep(e: Env, r: Run, d: int, q: nat, a: nat, i: nat) returns (a': nat)
    requires Sane(e, r, d) && q <= a < i < |r.evs| && OnTime(e, r, d, q, a, i)
    requires Querying(At(r, i)) && Querying(At(r, i + 1))
    ensures a <= a' < i + 1 && OnTime(e, r, d, q, a', i + 1)
    ensures r.states[i+1].query.cb == r.states[i].query.cb
  {
    QueryStepAt(e, r, d, i);
    assert NotBefore(r, a, i) && r.evs[i].now - r.evs[a].now <= d;
    a' := if r.evs[i].ev.Tick? then i else a;
  }

  lemma OnTimeOn(e: Env, r: Run, d: int, q: nat, a: nat, i: nat) returns (a': nat)
    requires Sane(e, r, d) && q <= a < i < |r.evs| && OnTime(e, r, d, q, a, i)
    requires Throughout(r, Querying, q, i + 1)
    ensures a <= a' < i + 1 && OnTime(e, r, d, q, a', i + 1)
    ensures r.states[i+1].query.cb == r.states[i].query.cb
  {
    assert Querying(At(r, i)) && Querying(At(r, i + 1));
    a' := OnTimeStep(e, r, d, q, a, i);
  }

  lemma {:induction false} StaysOnTime(e: Env, r: Run, d: int, q: nat, i: nat) returns (a: nat)
    requires Sane(e, r, d) && q < i <= |r.evs| && Accepted(r, q) && Throughout(r, Querying, q, i)
    ensures q <= a < i && OnTime(e, r, d, q, a, i)
    ensures r.states[i].query.cb == r.evs[q].ev.cb
  {
    if i == q + 1 {
      AcceptedOnTime(e, r, d, q);
      a := q;
    } else {
      a := StaysOnTime(e, r, d, q, i - 1);
      a := OnTimeOn(e, r, d, q, a, i - 1);
    }
  }

  /** No event finds a query unfinished after its bound. */
  lemma QueryIsBounded(e: Env, r: Run, d: int, q: nat, n: nat)
    requires Sane(e, r, d) && q < n < |r.evs| && Accepted(r, q) && Throughout(r, Querying, q, n)
    ensures r.evs[n].now <= r.evs[q].now + QueryBound(e.t, d)
  {
    var a := StaysOnTime(e, r, d, q, n);
    assert r.evs[n].now - r.evs[a].now <= d;
    assert Querying(At(r, n));
  }

  lemma {:induction false} LastInQuery(r: Run, q: nat, z: nat) returns (n: nat)
    requires q < z < |r.states| && Querying(At(r, q + 1)) && !Querying(At(r, z))
    ensures q < n < z && Throughout(r, Querying, q, n) && !Querying(At(r, n + 1))
  {
    n := q + 1;
    while Querying(At(r, n + 1))
      invariant q < n < z && Throughout(r, Querying, q, n)
      decreases z - n
    {
      n := n + 1;
    }
  }

  lemma LeavesQuery(e: Env, r: Run, d: int, q: nat, z: nat) returns (y: nat)
    requires Sane(e, r, d) && q < z < |r.evs| && Accepted(r, q)
    requires r.evs[z].now > r.evs[q].now + QueryBound(e.t, d)
    ensures q < y <= z && !Querying(At(r, y))
  {
    if Throughout(r, Querying, q, z) {
      QueryIsBounded(e, r, d, q, z);
    }
    y :| q < y <= z && !Querying(At(r, y));
  }

  /** Every accepted query that no cancel ends is over within its bound, in ROUTES_READY or IDLE, and
      the step that ends it fires its callback, whatever messages arrive or are lost. */
  lemma QueryEnds(e: Env, r: Run, d: int, q: nat, z: nat) returns (n: nat)
    requires Sane(e, r, d) && q < z < |r.evs| && Accepted(r, q)
    requires r.evs[z].now > r.evs[q].now + QueryBound(e.t, d)
    requires forall k :: q < k <= z ==> !r.evs[k].ev.Cancel?
    ensures q < n < z && Throughout(r, Querying, q, n) && r.evs[n].now <= r.evs[q].now + QueryBound(e.t, d)
    ensures At(r, n + 1) == ROUTES_READY || At(r, n + 1) == IDLE
    ensures var cb := r.evs[q].ev.cb;
      cb.Some? ==> Fired(r.states[n], r.evs[n].ev, r.states[n+1]) == Some(Fire(cb.value, r.states[n+1].query.result))
  {
    var y := LeavesQuery(e, r, d, q, z);
    n := LastInQuery(r, q, y);
    QueryIsBounded(e, r, d, q, n);
    QueryEndsByFiring(e, r, d, q, n);
  }

  lemma QueryEndsByFiring(e: Env, r: Run, d: int, q: nat, n: nat)
    requires Sane(e, r, d) && q < n < |r.evs| && Accepted(r, q) && !r.evs[n].ev.Cancel?
    requires Throughout(r, Querying, q, n) && !Querying(At(r, n + 1))
    ensures At(r, n + 1) == ROUTES_READY || At(r, n + 1) == IDLE
    ensures var cb := r.evs[q].ev.cb;
      cb.Some? ==> Fired(r.states[n], r.evs[n].ev, r.states[n+1]) == Some(Fire(cb.value, r.states[n+1].query.result))
  {
    var a := StaysOnTime(e, r, d, q, n);
    assert Querying(At(r, n));
    PhaseAt(e, r, n);
  }

  /** With the default timings every query is over after 124 s and ten tick intervals. */
  lemma QueryEndsByDefault(e: Env, r: Run, d: int, q: nat, z: nat) returns (n: nat)
    requires Sane(e, r, d) && e.t == DEFAULT_TIMINGS && q < z < |r.evs| && Accepted(r, q)
    requires r.evs[z].now > r.evs[q].now + 124000 + 10 * d
    requires forall k :: q < k <= z ==> !r.evs[k].ev.Cancel?
    ensures q < n < z && r.evs[n].now <= r.evs[q].now + 124000 + 10 * d
    ensures At(r, n + 1) == ROUTES_READY || At(r, n + 1) == IDLE
    ensures QueryBound(e.t, d) == 124000 + 10 * d
  {
    n := QueryEnds(e, r, d, q, z);
  }

  // ---- republishing ----

  /** The interval of the states that publish or try again; 0 for the others. */
  function Period(st: TripState): int {
    match st
    case INITIALIZING_IN_MAP | QUERY_WAITING_LOCALISATION | WAITING_LOCALISATION => 1000
    case QUERY_WAITING_ROUTE | ENGAGING => 2000
    case _ => 0
  }

  /** The step publishes its pose or goal again, or makes an engage attempt. */
  ghost predicate Repeats(r: Run, k: nat)
    requires |r.states| == |r.evs| + 1 && k < |r.evs|
  {
    var s, ev, now := r.states[k], r.evs[k].ev, r.evs[k].now;
    && ev.Tick? && Period(s.status.state) > 0
    && Due(s, now, Period(s.status.state))
    && match s.status.state
       case QUERY_WAITING_ROUTE => s.inbox.routeState != Some(SET)
       case ENGAGING => true
       case _ => !Localised(s)
  }

  /** How many of the steps from j to i-1 repeat. */
  ghost function Repetitions(r: Run, j: nat, i: nat): nat
    requires |r.states| == |r.evs| + 1 && j <= i <= |r.evs|
  {
    if i == j then 0 else Repetitions(r, j, i - 1) + if Repeats(r, i - 1) then 1 else 0
  }

  ghost predicate StaysIn(r: Run, st: TripState, j: nat, i: nat)
    requires i < |r.states|
  {
    forall k :: j <= k <= i ==> At(r, k) == st
  }

  /** A step repeats exactly when its tick publishes without leaving the state for the drive. */
  lemma RepeatsPublishes(r: Run, k: nat)
    requires |r.states| == |r.evs| + 1 && k < |r.evs| && Period(At(r, k)) > 0 && r.evs[k].ev.Tick?
    ensures Repeats(r, k) <==>
      TickPublishes(r.states[k], r.evs[k].now, r.evs[k].ev.servicesReady).Some?
      && !(At(r, k) == WAITING_LOCALISATION && Localised(r.states[k]))
  {
  }

  lemma StillWaiting(e: Env, r: Run, k: nat)
    requires IsRun(e, r) && k < |r.evs| && At(r, k + 1) == At(r, k) && At(r, k) == WAITING_LOCALISATION
    requires r.evs[k].ev.Tick?
    ensures !Localised(r.states[k])
  {
    FactsAt(e, r, k);
  }

  lemma PublishClockAt(e: Env, r: Run, k: nat)
    requires IsRun(e, r) && k < |r.evs| && At(r, k + 1) == At(r, k) && Period(At(r, k)) > 0
    ensures r.states[k+1].clock.lastPublish == if Repeats(r, k) then r.evs[k].now else r.states[k].clock.lastPublish
  {
    SendsAt(e, r, k);
    if r.evs[k].ev.Tick? {
      RepeatsPublishes(r, k);
      if At(r, k) == WAITING_LOCALISATION {
        StillWaiting(e, r, k);
      }
    }
  }

  lemma {:induction false} RepetitionsSpread(e: Env, r: Run, st: TripState, entered: int, j: nat, i: nat)
    requires IsRun(e, r) && Ordered(r) && j <= i < |r.evs| && StaysIn(r, st, j, i) && Period(st) > 0
    requires r.states[j].clock == Clock(0, entered) && entered <= r.evs[j].now
    ensures var c := Repetitions(r, j, i);
      c > 0 ==> i > j && entered + Period(st) * (c - 1) <= r.states[i].clock.lastPublish <= r.evs[i-1].now
  {
    if i > j {
      RepetitionsSpread(e, r, st, entered, j, i - 1);
      assert i - 1 > j ==> NotBefore(r, i - 2, i - 1);
      assert At(r, i - 1) == st && At(r, i) == st;
      PublishClockAt(e, r, i - 1);
      assert NotBefore(r, j, i - 1);
    }
  }

  /** During one stay of length T in a state that repeats, counting the step that ends it, there are at
      most 1 + T / period repetitions, however the ticks are spaced. */
  lemma RepublishBound(e: Env, r: Run, st: TripState, entered: int, j: nat, i: nat)
    requires IsRun(e, r) && Ordered(r) && j <= i < |r.evs| && StaysIn(r, st, j, i) && Period(st) > 0
    requires r.states[j].clock == Clock(0, entered) && entered <= r.evs[j].now
    ensures Repetitions(r, j, i + 1) <= 1 + (r.evs[i].now - entered) / Period(st)
  {
    RepetitionsSpread(e, r, st, entered, j, i);
    var c := Repetitions(r, j, i);
    assert NotBefore(r, j, i) && (i > j ==> NotBefore(r, i - 1, i));
    assert At(r, i) == st;
    QuotientBound(r.evs[i].now - entered, Period(st), if Repeats(r, i) then c else if c > 0 then c - 1 else 0);
  }

  lemma QuotientBound(t: int, p: int, c: nat)
    requires p > 0 && t >= 0
    ensures p * c <= t ==> c <= t / p
  {
    var q := t / p;
    if c > q {
      MulMonotone(p, q + 1, c);
      assert p * (q + 1) == p * q + p;
    }
  }

  lemma MulMonotone(p: int, a: int, b: int)
    requires p > 0 && a <= b
    ensures p * a <= p * b
  {
  }

  /** The stays the bound is about: each begins with a step into the state, or with boot. */
  lemma StayBegins(e: Env, r: Run, j: nat)
    requires IsRun(e, r) && Ordered(r) && j < |r.evs| && Period(At(r, j)) > 0
    ensures j == 0 ==> r.states[0].clock == Clock(0, r.t0) && r.t0 <= r.evs[0].now
    ensures j > 0 && At(r, j - 1) != At(r, j) ==>
      r.states[j].clock == Clock(0, r.evs[j-1].now) && r.evs[j-1].now <= r.evs[j].now
  {
    if j > 0 {
      FactsAt(e, r, j - 1);
      assert NotBefore(r, j - 1, j);
    } else {
      assert NotBefore(r, 0, 0);
    }
  }
}
