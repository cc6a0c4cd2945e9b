/** Accounting for query callbacks, and what an observer of the notifications knows. */
module Callbacks {
  import opened Base
  import opened LaneSpec
  import opened Resolvers
  import opened TripSpec
  import opened Runs
  import opened Steps
  import opened Outputs
  import opened History

  predicate IsFire(o: Output, c: Callback) {
    o.Fire? && o.cb == c
  }

  /** How often callback c has fired. */
  function Fires(log: seq<Output>, c: Callback): nat {
    if log == [] then 0 else Fires(log[..|log|-1], c) + One(IsFire(log[|log|-1], c))
  }

  ghost function Submitted(r: Run, c: Callback, i: nat): nat
    requires i <= |r.evs|
  {
    if i == 0 then 0
    else Submitted(r, c, i - 1) + One(r.evs[i-1].ev.QueryEta? && r.evs[i-1].ev.cb == Some(c))
  }

  /** How often a cancel has discarded c while it was pending. */
  ghost function Dropped(r: Run, c: Callback, i: nat): nat
    requires i <= |r.evs| < |r.states|
  {
    if i == 0 then 0
    else Dropped(r, c, i - 1) + One(r.evs[i-1].ev.Cancel? && r.states[i-1].query.cb == Some(c))
  }

  function Pending(s: Ctrl, c: Callback): nat {
    One(s.query.cb == Some(c))
  }

  lemma FiresSnoc(log: seq<Output>, o: Option<Output>, c: Callback)
    ensures Fires(Snoc(log, o), c) == Fires(log, c) + One(o.Some? && IsFire(o.value, c))
  {
    if o.Some? {
      assert (log + [o.value])[..|log|] == log;
    }
  }

  lemma FiresSnocs(log: seq<Output>, p: Option<Output>, f: Option<Output>, n: Option<Output>,
                   y: Option<Output>, c: Callback)
    requires p.Some? ==> !p.value.Fire?
    requires n.Some? ==> !n.value.Fire?
    requires y.Some? ==> !y.value.Fire?
    ensures Fires(Snoc(Snoc(Snoc(Snoc(log, p), f), n), y), c) == Fires(log, c) + One(f.Some? && IsFire(f.value, c))
  {
    FiresSnoc(log, p, c);
    FiresSnoc(Snoc(log, p), f, c);
    FiresSnoc(Snoc(Snoc(log, p), f), n, c);
    FiresSnoc(Snoc(Snoc(Snoc(log, p), f), n), y, c);
  }

  lemma PublishedNoFire(s: Ctrl, now: int, ev: Event, s': Ctrl)
    ensures Published(s, now, ev, s').Some? ==>
      !Published(s, now, ev, s').value.Fire? && !Published(s, now, ev, s').value.Notify?
  {
  }

  lemma FiresOfStep(s: Ctrl, now: int, ev: Event, s': Ctrl, c: Callback)
    requires StepSends(s, now, ev, s')
    ensures Fires(s'.log, c) == Fires(s.log, c) + One(Fired(s, ev, s').Some? && Fired(s, ev, s').value.cb == c)
  {
    PublishedNoFire(s, now, ev, s');
    FiresSnocs(s.log, Published(s, now, ev, s'), Fired(s, ev, s'), Noted(s, ev, s'), Answers(s, ev), c);
  }

  lemma BalanceOfStep(m: Resolver, t: Timings, s: Ctrl, now: int, ev: Event, s': Ctrl, c: Callback)
    requires StepSends(s, now, ev, s') && StepFacts(t, s, now, ev, s')
    requires !Querying(s.status.state) ==> s.query.cb == None
    ensures Pending(s, c) + One(ev.QueryEta? && ev.cb == Some(c))
         == Pending(s', c) + One(ev.Cancel? && s.query.cb == Some(c))
            + One(Fired(s, ev, s').Some? && Fired(s, ev, s').value.cb == c)
  {
  }

  lemma BalanceAt(e: Env, r: Run, i: nat, c: Callback)
    requires IsRun(e, r) && i < |r.evs|
    ensures var s, ev, s' := r.states[i], r.evs[i].ev, r.states[i+1];
      Pending(s, c) + One(ev.QueryEta? && ev.cb == Some(c)) + Fires(s.log, c)
      == Pending(s', c) + One(ev.Cancel? && s.query.cb == Some(c)) + Fires(s'.log, c)
  {
    FactsAt(e, r, i);
    SendsAt(e, r, i);
    var s, now, ev, s' := r.states[i], r.evs[i].now, r.evs[i].ev, r.states[i+1];
    FiresOfStep(s, now, ev, s', c);
    BalanceOfStep(e.m, e.t, s, now, ev, s', c);
  }

  /** Every submission of a callback is accounted for: it has fired, or a cancel dropped it, or it is
      pending. */
  lemma {:induction false} CallbackBalance(e: Env, r: Run, c: Callback, i: nat)
    requires IsRun(e, r) && i <= |r.evs|
    ensures Submitted(r, c, i) == Fires(r.states[i].log, c) + Dropped(r, c, i) + Pending(r.states[i], c)
  {
    if i == 0 {
      BootFiresNothing(e, r, c);
    } else {
      CallbackBalance(e, r, c, i - 1);
      BalanceAt(e, r, i - 1, c);
    }
  }

  lemma BootFiresNothing(e: Env, r: Run, c: Callback)
    requires IsRun(e, r)
    ensures Fires(r.states[0].log, c) == 0 && r.states[0].query.cb == None
  {
    var s := r.states[0];
    if |s.log| == 2 {
      FiresSnoc([], Some(s.log[0]), c);
      FiresSnoc([s.log[0]], Some(s.log[1]), c);
      assert s.log == [s.log[0]] + [s.log[1]];
    }
  }

  /** A callback that was submitted once fires at most once, even when the trip leg of its query fails
      inside the end of the pickup leg. */
  lemma NoCallbackFiresTwice(e: Env, r: Run, c: Callback, i: nat)
    requires IsRun(e, r) && i <= |r.evs| && Submitted(r, c, i) <= 1
    ensures Fires(r.states[i].log, c) <= 1
    ensures Fires(r.states[i].log, c) == 1 ==> Dropped(r, c, i) == 0 && r.states[i].query.cb != Some(c)
  {
    CallbackBalance(e, r, c, i);
  }

  lemma PendingStep(e: Env, r: Run, i: nat)
    requires IsRun(e, r) && i < |r.evs| && Querying(At(r, i + 1))
    ensures Querying(At(r, i)) ==> r.states[i+1].query.cb == r.states[i].query.cb
    ensures !Querying(At(r, i)) ==>
      At(r, i) == IDLE && r.evs[i].ev.QueryEta? && r.states[i+1].query.cb == r.evs[i].ev.cb
  {
    FactsAt(e, r, i);
  }

  lemma {:induction false} PendingKept(e: Env, r: Run, q: nat, i: nat)
    requires IsRun(e, r) && q < i <= |r.evs| && Throughout(r, Querying, q, i) && !Querying(At(r, q))
    ensures r.evs[q].ev.QueryEta? && At(r, q) == IDLE && r.states[i].query.cb == r.evs[q].ev.cb
  {
    assert Querying(At(r, i));
    PendingStep(e, r, i - 1);
    if i > q + 1 {
      assert Querying(At(r, i - 1));
      PendingKept(e, r, q, i - 1);
    }
  }

  /** The pending callback is that of the query being answered; outside a query none is pending. */
  lemma PendingExactly(e: Env, r: Run, i: nat) returns (q: nat)
    requires IsRun(e, r) && i <= |r.evs|
    ensures !Querying(At(r, i)) ==> r.states[i].query.cb == None
    ensures Querying(At(r, i)) ==>
      && q < i && At(r, q) == IDLE && r.evs[q].ev.QueryEta? && Throughout(r, Querying, q, i)
      && r.states[i].query.cb == r.evs[q].ev.cb
  {
    q := 0;
    InvAt(e, r, i);
    if Querying(At(r, i)) {
      StartPhase(e, r);
      q := Entry(r, Querying, i);
      PendingKept(e, r, q, i);
    }
  }

  // ---- why a query fails ----

  /** Nothing is in reach of the origin; the error names the lane nearest to the destination, if any. */
  ghost predicate NothingInReach(m: Resolver, cache: seq<LaneInfo>, to: Gps, origin: Id, reason: QueryError) {
    var nearest := m.nearest(m.connected(cache, to, origin).cache, to).answer;
    reason == NotReachable(if nearest.Found? then Some(nearest.info.id) else None, origin)
  }

  /** The reason given to the callback of an accepted query that fails in this step. */
  ghost predicate ReasonFits(m: Resolver, s: Ctrl, ev: Event, reason: QueryError) {
    match s.status.state
    case IDLE =>
      && ev.QueryEta? && ev.pose.Some?
      && var look := m.nearest(s.cache, ev.pose.value);
         if look.answer.Found? then NothingInReach(m, look.cache, ev.start, look.answer.info.id, reason)
         else reason == NoOriginLane(Pickup)
    case QUERY_WAITING_LOCALISATION => reason == LocalisationTimeout(s.query.leg)
    case QUERY_WAITING_ROUTE => reason == RouteTimeout(s.query.leg, s.status.startId, s.status.goalId)
    case QUERY_READING_ETA =>
      && s.query.leg.Pickup? && s.status.goalId.Text?
      && NothingInReach(m, s.cache, s.query.goal, s.status.goalId.id, reason)
    case _ => false
  }

  /** What a query that has failed leaves in the callback's result. */
  ghost predicate FailedWith(s: Ctrl, s': Ctrl, reason: QueryError) {
    s.query.cb.Some? ==> !s'.query.result.success && s'.query.result.error == reason
  }

  lemma LegFails(e: Env, s: Ctrl, now: int, a: LaneInfo, to: Gps) returns (reason: QueryError)
    requires Sound(e.m) && e.m.ok(s.cache) && e.m.onMap(a.id) && LegFrom(e, s, now, a, to).status.state == IDLE
    ensures FailedWith(s, LegFrom(e, s, now, a, to), reason) && NothingInReach(e.m, s.cache, to, a.id, reason)
  {
    LookupFacts(e.m, s.cache, FromLane(to, a.id));
    var m := e.m.connected(s.cache, to, a.id);
    reason := Unreached(e.m.nearest(m.cache, to).answer, a.id);
  }

  lemma RequestFails(e: Env, s: Ctrl, now: int, ev: Event) returns (reason: QueryError)
    requires Sound(e.m) && Inv(e.m, s) && ev.QueryEta? && s.status.state == IDLE && ev.pose.Some? && ev.cb.Some?
    requires Step(e, s, now, ev).status.state == IDLE
    ensures ReasonFits(e.m, s, ev, reason)
    ensures !Step(e, s, now, ev).query.result.success && Step(e, s, now, ev).query.result.error == reason
  {
    var s1 := s.(query := Asked(s.query, ev.start, ev.goal, ev.cb), bank := EMPTY_BANK);
    LookupFacts(e.m, s.cache, AtGps(ev.pose.value));
    var l := StartLane(e, s1, ev.pose.value);
    if l.answer.Found? {
      reason := LegFails(e, s1.(cache := l.cache), now, l.answer.info, ev.start);
    } else {
      reason := NoOriginLane(Pickup);
    }
  }

  lemma PickupLegFails(e: Env, s: Ctrl, now: int) returns (reason: QueryError)
    requires Sound(e.m) && e.m.ok(s.cache) && s.status.state == QUERY_READING_ETA
    requires s.query.leg.Pickup? && PickupLegInv(e.m, s) && FinishPickupLeg(e, s, now).status.state == IDLE
    ensures FailedWith(s, FinishPickupLeg(e, s, now), reason)
    ensures s.status.goalId.Text? && NothingInReach(e.m, s.cache, s.query.goal, s.status.goalId.id, reason)
  {
    var id := s.status.goalId.id;
    LookupFacts(e.m, s.cache, OfId(id));
    var s1 := ClearRoute(s.(query := s.query.(result := s.query.result.(pickupLeg := LegResult(s)), leg := Trip),
                            bank := s.bank.(pickup := Some(Held(s, s.query.start, id)))));
    var l := StartLane(e, s1, s1.query.start);
    reason := LegFails(e, s1.(cache := l.cache), now, l.answer.info, s1.query.goal);
  }

  lemma TickFails(e: Env, s: Ctrl, now: int, ready: bool) returns (reason: QueryError)
    requires Sound(e.m) && Inv(e.m, s) && Querying(s.status.state)
    requires DoTick(e, s, now, ready).status.state == IDLE
    ensures ReasonFits(e.m, s, Tick(None, ready), reason) && FailedWith(s, DoTick(e, s, now, ready), reason)
  {
    DoTickFacts(e, s, now, ready);
    if s.status.state == QUERY_WAITING_LOCALISATION {
      reason := LocalisationTimeout(s.query.leg);
    } else if s.status.state == QUERY_WAITING_ROUTE {
      reason := RouteTimeout(s.query.leg, s.status.startId, s.status.goalId);
    } else {
      reason := PickupLegFails(e, if s.query.etaReceived then s else WithoutEta(s), now);
    }
  }

  /** A query that fails in a step after its acceptance, or in the step that accepts it, tells its callback
      why: no lane under the vehicle, nothing in reach, no localisation in time, or no route in time. */
  lemma FailureReason(e: Env, r: Run, i: nat) returns (reason: QueryError)
    requires IsRun(e, r) && i < |r.evs| && At(r, i + 1) == IDLE
    requires Fired(r.states[i], r.evs[i].ev, r.states[i+1]).Some?
    requires r.evs[i].ev.QueryEta? ==> At(r, i) == IDLE && r.evs[i].ev.pose.Some?
    ensures ReasonFits(e.m, r.states[i], r.evs[i].ev, reason)
    ensures var result := Fired(r.states[i], r.evs[i].ev, r.states[i+1]).value.result;
      !result.success && result.error == reason
  {
    InvAt(e, r, i);
    assert StepAt(e, r, i);
    var s, now, ev := r.states[i], r.evs[i].now, r.evs[i].ev;
    if ev.QueryEta? {
      reason := RequestFails(e, s, now, ev);
    } else {
      SameCoreInv(e.m, s, SetCurrentGps(s, ev.pose));
      reason := TickFails(e, SetCurrentGps(s, ev.pose), now, ev.servicesReady);
    }
  }

  // ---- the observer ----

  /** The phase known to one who only follows the notifications. */
  function Observed(log: seq<Output>): TripState {
    if log == [] then IDLE
    else if log[|log|-1].Notify? then log[|log|-1].next
    else Observed(log[..|log|-1])
  }

  lemma ObservedSnoc(log: seq<Output>, o: Option<Output>)
    ensures Observed(Snoc(log, o)) == if o.Some? && o.value.Notify? then o.value.next else Observed(log)
  {
    if o.Some? {
      assert (log + [o.value])[..|log|] == log;
    }
  }

  ghost function NotedAt(r: Run, k: nat): Option<Output>
    requires k < |r.evs| < |r.states|
  {
    Noted(r.states[k], r.evs[k].ev, r.states[k+1])
  }

  /** A cancel or a failing query resets the phase without a notification. */
  ghost predicate SilentReset(r: Run, k: nat)
    requires k < |r.evs| < |r.states|
  {
    At(r, k) != IDLE && Silent(r.states[k], r.evs[k].ev, r.states[k+1])
  }

  ghost predicate SilentSince(r: Run, k: nat, i: nat)
    requires i <= |r.evs| < |r.states|
  {
    k < i && SilentReset(r, k) && forall l :: k < l < i ==> NotedAt(r, l).None?
  }

  lemma ObservedSnocs(log: seq<Output>, p: Option<Output>, f: Option<Output>, n: Option<Output>, y: Option<Output>)
    requires p.Some? ==> !p.value.Notify?
    requires f.Some? ==> !f.value.Notify?
    requires n.Some? ==> n.value.Notify?
    requires y.Some? ==> !y.value.Notify?
    ensures Observed(Snoc(Snoc(Snoc(Snoc(log, p), f), n), y)) == if n.Some? then n.value.next else Observed(log)
  {
    ObservedSnoc(log, p);
    ObservedSnoc(Snoc(log, p), f);
    ObservedSnoc(Snoc(Snoc(log, p), f), n);
    ObservedSnoc(Snoc(Snoc(Snoc(log, p), f), n), y);
  }

  lemma ObservedAt(e: Env, r: Run, i: nat)
    requires IsRun(e, r) && i < |r.evs|
    ensures Observed(r.states[i+1].log) == if NotedAt(r, i).Some? then At(r, i + 1) else Observed(r.states[i].log)
  {
    SendsAt(e, r, i);
    var s, now, ev, s' := r.states[i], r.evs[i].now, r.evs[i].ev, r.states[i+1];
    PublishedNoFire(s, now, ev, s');
    ObservedSnocs(s.log, Published(s, now, ev, s'), Fired(s, ev, s'), Noted(s, ev, s'), Answers(s, ev));
  }

  lemma BootObserved(e: Env, r: Run)
    requires IsRun(e, r)
    ensures Observed(r.states[0].log) == At(r, 0)
  {
  }

  /** The observer is wrong exactly after a silent reset that no notification has followed, and then
      the true phase is IDLE. */
  lemma {:induction false} ObserverView(e: Env, r: Run, i: nat)
    requires IsRun(e, r) && i <= |r.evs|
    ensures Observed(r.states[i].log) != At(r, i) <==> exists k :: SilentSince(r, k, i)
    ensures Observed(r.states[i].log) != At(r, i) ==> At(r, i) == IDLE
  {
    if i == 0 {
      BootObserved(e, r);
    } else {
      ObserverView(e, r, i - 1);
      ObservedAt(e, r, i - 1);
      if NotedAt(r, i - 1).Some? {
        forall k
          ensures !SilentSince(r, k, i)
        {
          assert k == i - 1 ==> !SilentReset(r, k);
        }
      } else if SilentReset(r, i - 1) {
        assert SilentSince(r, i - 1, i);
      } else {
        SilentSinceSame(r, i - 1, i);
      }
    }
  }

  lemma SilentSinceSame(r: Run, j: nat, i: nat)
    requires i == j + 1 && i <= |r.evs| < |r.states| && NotedAt(r, j).None? && !SilentReset(r, j)
    ensures (exists k :: SilentSince(r, k, i)) <==> exists k :: SilentSince(r, k, j)
  {
    if k :| SilentSince(r, k, i) {
      assert SilentSince(r, k, j);
    }
    if k :| SilentSince(r, k, j) {
      assert SilentSince(r, k, i);
    }
  }

  /** Each notification leaves the phase the observer knows, or IDLE after a silent reset and at the
      end of a successful query. */
  lemma NotificationsChain(e: Env, r: Run, i: nat)
    requires IsRun(e, r) && i < |r.evs| && NotedAt(r, i).Some?
    ensures NotedAt(r, i).value.Notify? && NotedAt(r, i).value.next == At(r, i + 1)
    ensures NotedAt(r, i).value.prev == if At(r, i + 1) == ROUTES_READY then IDLE else At(r, i)
    ensures NotedAt(r, i).value.prev == Observed(r.states[i].log) || NotedAt(r, i).value.prev == IDLE
  {
    ObserverView(e, r, i);
  }
}
