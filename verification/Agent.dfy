/** The application between the controller and the gateway client, and the whole agent. */
module Agents {
  import opened Base
  import opened LaneSpec
  import opened Resolvers
  import opened TripSpec
  import opened AutowareControllers
  import opened Runs
  import opened Outputs
  import opened StreamClients
  import opened Gateway

  // ---- the application's callbacks ----

  /** A successful query's callback posts startTrip after its report. */
  predicate PostsStart(o: Output) {
    o.Fire? && o.result.success
  }

  /** The client's state after the strand has enqueued xs. */
  function Reported(n: Net, xs: seq<VehicleEvent>): Net {
    n.(queue := n.queue + xs, enqueued := n.enqueued + xs)
  }

  lemma {:induction false} ReportedConserves(n: Net, xs: seq<VehicleEvent>)
    requires Conserved(n)
    ensures Conserved(Reported(n, xs))
  {
    if xs == [] {
      assert Reported(n, xs) == n;
    } else {
      var k := |xs| - 1;
      ReportedConserves(n, xs[..k]);
      ActConserves(Reported(n, xs[..k]), Action.Enqueue(xs[k]));
      ReportedSnoc(n, xs, k);
    }
  }

  lemma ReportedSnoc(n: Net, xs: seq<VehicleEvent>, k: nat)
    requires k < |xs|
    ensures Reported(n, xs[..k + 1]) == Act(Reported(n, xs[..k]), Action.Enqueue(xs[k]))
    ensures Reported(n, xs[..|xs|]) == Reported(n, xs)
  {
    assert xs[..k + 1] == xs[..k] + [xs[k]] && xs[..|xs|] == xs;
    assert n.queue + xs[..k + 1] == n.queue + xs[..k] + [xs[k]];
    assert n.enqueued + xs[..k + 1] == n.enqueued + xs[..k] + [xs[k]];
  }

  lemma ReportedTwice(n: Net, xs: seq<VehicleEvent>, ys: seq<VehicleEvent>)
    ensures Reported(Reported(n, xs), ys) == Reported(n, xs + ys) && Reported(n, []) == n
  {
    assert n.queue + xs + ys == n.queue + (xs + ys);
    assert n.enqueued + xs + ys == n.enqueued + (xs + ys);
  }

  class AppCallbacks {
    const client: StreamClient
    var streaming: bool

    constructor (client: StreamClient)
      ensures this.client == client && !streaming
    {
      this.client := client;
      streaming := false;
    }

    method EnqueueAll(events: seq<VehicleEvent>)
      modifies client
      ensures client.View() == Reported(old(client.View()), events)
    {
      ReportedTwice(client.View(), [], []);
      for i := 0 to |events|
        invariant client.View() == Reported(old(client.View()), events[..i])
      {
        client.Enqueue(events[i]);
        ReportedSnoc(old(client.View()), events, i);
      }
      assert events[..|events|] == events;
    }

    method OnTripState(next: TripState)
      modifies this, client
      ensures client.View() == Reported(old(client.View()), OnPhase(next))
      ensures streaming ==
        if next == WAITING_FOR_MOVE then false else if next == DRIVING_TO_PICKUP then true else old(streaming)
    {
      ReportedTwice(client.View(), [], []);
      if next == WAITING_FOR_MOVE {
        EnqueueAll([TripInitAck, Arrive, StatusReport(ARRIVED_AT_PICKUP)]);
        streaming := false;
      } else if next == DRIVING_TO_PICKUP {
        streaming := true;
      } else if next == RUNNING {
        EnqueueAll([StatusReport(IN_PROGRESS)]);
      } else if next == COMPLETED {
        EnqueueAll([Arrive, StatusReport(TRIP_COMPLETED)]);
      } else if next == FAILED {
        EnqueueAll([StatusReport(TRIP_ERROR)]);
      }
    }

    /** Reports the quote; the flag says whether startTrip is posted to the strand. */
    method OnQueryResult(r: EtaQueryResult) returns (startTrip: bool)
      modifies client
      ensures client.View() == Reported(old(client.View()), OnQuote(r)) && startTrip == r.success
    {
      ReportedTwice(client.View(), [], []);
      if !r.success {
        return false;
      }
      var seconds := r.pickupLeg.seconds + r.tripLeg.seconds;
      EnqueueAll([Eta(seconds, Fare(r.tripLeg.distance, r.tripLeg.seconds))]);
      return true;
    }

    /** One output of the controller; only notifications and callbacks concern the application. The flag
        says whether startTrip is posted to the strand. */
    method HandleOutput(o: Output) returns (startTrip: bool)
      modifies this, client
      ensures client.View() == Reported(old(client.View()), Announce(o)) && startTrip == PostsStart(o)
    {
      ReportedTwice(client.View(), [], []);
      startTrip := false;
      match o
      case Notify(_, next) => OnTripState(next);
      case Fire(_, result) => startTrip := OnQueryResult(result);
      case _ =>
    }
  }

  // ---- the agent as a state machine ----

  /** The controller with the events it has handled, how many of its outputs the application has
      handled, how many startTrip commands that has posted which are still queued, and the client. */
  datatype AgentState = AgentState(ctrl: Ctrl, evs: seq<Timed>, handled: nat, posted: nat, net: Net)

  /** What happens next: an event from outside reaches the strand, a startTrip that the application
      posted does, the running handler makes its next callback, or a thread of the client acts. A posted
      command may be handled at any later time. */
  datatype Turn =
    | Incoming(now: int, ev: Event)
    | PostedStart(now: int)
    | NextCallback
    | Thread(action: Action)

  function AfterCallback(a: AgentState): AgentState {
    if a.handled < |a.ctrl.log| then
      var o := a.ctrl.log[a.handled];
      a.(handled := a.handled + 1, posted := a.posted + One(PostsStart(o)), net := Reported(a.net, Announce(o)))
    else a
  }

  /** The strand goes on to the next event only when all callbacks of the last one have been made. */
  function Finished(a: AgentState): AgentState
    decreases |a.ctrl.log| - a.handled
  {
    if a.handled < |a.ctrl.log| then Finished(AfterCallback(a)) else a
  }

  function Handled(e: Env, a: AgentState, now: int, ev: Event): AgentState {
    a.(ctrl := Step(e, a.ctrl, now, ev), evs := a.evs + [Timed(now, ev)])
  }

  function StartHandled(e: Env, a: AgentState, now: int): AgentState {
    if a.posted > 0 then Handled(e, a.(posted := a.posted - 1), now, StartTrip) else a
  }

  function Take(e: Env, a: AgentState, t: Turn): AgentState {
    match t
    case Incoming(now, ev) => Handled(e, Finished(a), now, ev)
    case PostedStart(now) => StartHandled(e, Finished(a), now)
    case NextCallback => AfterCallback(a)
    case Thread(action) => a.(net := Act(a.net, action))
  }

  function Booted(m: Resolver, start: Option<Gps>, t0: int): AgentState {
    AgentState(Boot(m, start, t0), [], 0, 0, INITIAL)
  }

  function AgentAfter(e: Env, a: AgentState, turns: seq<Turn>): AgentState {
    if turns == [] then a else Take(e, AgentAfter(e, a, turns[..|turns|-1]), turns[|turns|-1])
  }

  // ---- the enqueue history of an agent ----

  lemma MergesReader(h: seq<VehicleEvent>, a: seq<VehicleEvent>, e: VehicleEvent)
    requires Merges(h, a) && FromReader(e)
    ensures Merges(h + [e], a)
  {
    assert (h + [e])[..|h|] == h;
  }

  lemma {:induction false} MergesStrand(h: seq<VehicleEvent>, a: seq<VehicleEvent>, xs: seq<VehicleEvent>)
    requires Merges(h, a) && forall k :: 0 <= k < |xs| ==> !FromReader(xs[k])
    ensures Merges(h + xs, a + xs)
  {
    if xs == [] {
      assert h + xs == h && a + xs == a;
    } else {
      var k := |xs| - 1;
      MergesStrand(h, a, xs[..k]);
      assert (h + xs)[..|h| + k] == h + xs[..k] && (a + xs)[..|a| + k] == a + xs[..k];
    }
  }

  lemma AnnounceNotReader(o: Output)
    ensures forall k :: 0 <= k < |Announce(o)| ==> !FromReader(Announce(o)[k])
  {
  }

  /** What the client has been handed merges what the callbacks announced with the reader's own events. */
  ghost predicate HandedOver(n: Net, log: seq<Output>) {
    Conserved(n) && Merges(n.enqueued, AnnounceAll(log))
  }

  lemma ThreadKeeps(n: Net, log: seq<Output>, a: Action)
    requires HandedOver(n, log) && (a.Enqueue? ==> FromReader(a.event))
    ensures HandedOver(Act(n, a), log)
  {
    ActConserves(n, a);
    if a.Enqueue? {
      MergesReader(n.enqueued, AnnounceAll(log), a.event);
    }
  }

  lemma StrandKeeps(n: Net, log: seq<Output>, k: nat)
    requires k < |log| && HandedOver(n, log[..k])
    ensures HandedOver(Reported(n, Announce(log[k])), log[..k + 1])
  {
    ReportedConserves(n, Announce(log[k]));
    AnnounceNotReader(log[k]);
    MergesStrand(n.enqueued, AnnounceAll(log[..k]), Announce(log[k]));
    assert log[..k + 1][..k] == log[..k];
  }

  // ---- what every turn keeps ----

  /** The ETA reports among the callbacks of a log. */
  function ReportsIn(log: seq<Output>): nat {
    TallyOf(AnnounceAll(log)).etas
  }

  /** The controller has followed the run r, and the client has been handed what was handled of its log. */
  ghost predicate Follows(e: Env, r: Run, a: AgentState) {
    && IsRun(e, r) && a.evs == r.evs && a.ctrl == Now(r)
    && a.handled <= |a.ctrl.log| && HandedOver(a.net, a.ctrl.log[..a.handled])
  }

  /** Each ETA report has posted one startTrip: those handled and those still queued. */
  ghost predicate Wired(r: Run, a: AgentState)
    requires |r.states| == |r.evs| + 1 && a.handled <= |a.ctrl.log|
  {
    && PostedByReports(r)
    && StartTrips(r, |r.evs|) + a.posted == ReportsIn(a.ctrl.log[..a.handled])
  }

  lemma ReportsSnoc(log: seq<Output>, k: nat)
    requires k < |log|
    ensures ReportsIn(log[..k + 1]) == ReportsIn(log[..k]) + One(PostsStart(log[k]))
  {
    var xs := Announce(log[k]);
    TallyConcat(AnnounceAll(log[..k]), xs, |xs|);
    assert xs[..|xs|] == xs && log[..k + 1][..k] == log[..k];
  }

  lemma CallbackKeeps(e: Env, r: Run, a: AgentState)
    requires Follows(e, r, a)
    ensures Follows(e, r, AfterCallback(a)) && (Wired(r, a) ==> Wired(r, AfterCallback(a)))
  {
    if a.handled < |a.ctrl.log| {
      StrandKeeps(a.net, a.ctrl.log, a.handled);
      ReportsSnoc(a.ctrl.log, a.handled);
    }
  }

  lemma {:induction false} FinishedKeeps(e: Env, r: Run, a: AgentState)
    requires Follows(e, r, a)
    ensures Follows(e, r, Finished(a)) && (Wired(r, a) ==> Wired(r, Finished(a)))
    ensures Finished(a).handled == |a.ctrl.log| && Finished(a).ctrl == a.ctrl
    decreases |a.ctrl.log| - a.handled
  {
    if a.handled < |a.ctrl.log| {
      CallbackKeeps(e, r, a);
      FinishedKeeps(e, r, AfterCallback(a));
    }
  }

  lemma LogGrows(e: Env, r: Run, i: nat)
    requires IsRun(e, r) && i < |r.evs|
    ensures r.states[i].log <= r.states[i+1].log
  {
    SendsAt(e, r, i);
  }

  lemma {:induction false} StartTripsSame(r: Run, r': Run, i: nat)
    requires i <= |r.evs| && r.evs <= r'.evs
    ensures StartTrips(r', i) == StartTrips(r, i)
  {
    if i > 0 {
      StartTripsSame(r, r', i - 1);
    }
  }

  /** Handling one more event when all callbacks have been made. */
  lemma HandledKeeps(e: Env, r: Run, a: AgentState, now: int, ev: Event) returns (r': Run)
    requires Follows(e, r, a) && a.handled == |a.ctrl.log|
    ensures Grows(e, r, r', now, ev) && Follows(e, r', Handled(e, a, now, ev))
  {
    r' := Extended(e, r, now, ev);
    assert StepAt(e, r', |r.evs|);
    LogGrows(e, r', |r.evs|);
    assert Now(r').log[..a.handled] == a.ctrl.log[..a.handled];
  }

  /** An event from outside, or a startTrip that is taken off the queue, keeps the wiring. */
  lemma HandledWired(e: Env, r: Run, r': Run, a: AgentState, a': AgentState, now: int, ev: Event)
    requires Follows(e, r, a) && a.handled == |a.ctrl.log| && Wired(r, a)
    requires Grows(e, r, r', now, ev) && Follows(e, r', a') && a'.handled == a.handled
    requires a'.posted + One(ev.StartTrip?) == a.posted
    ensures Wired(r', a')
  {
    LogGrows(e, r', |r.evs|);
    assert a'.ctrl.log[..a.handled] == a.ctrl.log == a.ctrl.log[..a.handled];
    StartTripsSame(r, r', |r.evs|);
    PostedKept(e, r, r', now, ev);
  }

  lemma PostedKept(e: Env, r: Run, r': Run, now: int, ev: Event)
    requires IsRun(e, r) && Grows(e, r, r', now, ev) && PostedByReports(r)
    requires ev.StartTrip? ==> StartTrips(r, |r.evs|) < Told(Now(r)).etas
    ensures PostedByReports(r')
  {
    forall i | 0 <= i < |r'.evs|
      ensures PostedAt(r', i)
    {
      if i < |r.evs| {
        assert PostedAt(r, i);
        StartTripsSame(r, r', i + 1);
      } else {
        StartTripsSame(r, r', i);
      }
    }
  }

  predicate OwnTurn(t: Turn) {
    t.Thread? && t.action.Enqueue? ==> FromReader(t.action.event)
  }

  /** No one but the application calls startTrip. */
  predicate NoForeignStart(t: Turn) {
    t.Incoming? ==> !t.ev.StartTrip?
  }

  lemma TakeKeeps(e: Env, r: Run, a: AgentState, t: Turn) returns (r': Run)
    requires Follows(e, r, a) && OwnTurn(t)
    ensures Follows(e, r', Take(e, a, t))
    ensures NoForeignStart(t) && Wired(r, a) ==> Wired(r', Take(e, a, t))
  {
    r' := r;
    FinishedKeeps(e, r, a);
    var f := Finished(a);
    match t
    case Incoming(now, ev) =>
      r' := HandledKeeps(e, r, f, now, ev);
      if !ev.StartTrip? && Wired(r, a) {
        HandledWired(e, r, r', f, Handled(e, f, now, ev), now, ev);
      }
    case PostedStart(now) =>
      if f.posted > 0 {
        var g := f.(posted := f.posted - 1);
        r' := HandledKeeps(e, r, g, now, StartTrip);
        if Wired(r, a) {
          HandledWired(e, r, r', f, Handled(e, g, now, StartTrip), now, StartTrip);
        }
      }
    case NextCallback => CallbackKeeps(e, r, a);
    case Thread(action) => ThreadKeeps(a.net, a.ctrl.log[..a.handled], action);
  }

  ghost predicate AllOwn(turns: seq<Turn>) {
    forall i :: 0 <= i < |turns| ==> OwnTurn(turns[i])
  }

  ghost predicate OnlyPostedStarts(turns: seq<Turn>) {
    forall i :: 0 <= i < |turns| ==> NoForeignStart(turns[i])
  }

  lemma BootFollows(e: Env, start: Option<Gps>, t0: int) returns (r: Run)
    requires Sound(e.m)
    ensures Follows(e, r, Booted(e.m, start, t0)) && Wired(r, Booted(e.m, start, t0))
  {
    r := Run(start, t0, [Boot(e.m, start, t0)], []);
  }

  lemma {:induction false} AgentFollows(e: Env, start: Option<Gps>, t0: int, turns: seq<Turn>) returns (r: Run)
    requires Sound(e.m) && AllOwn(turns)
    ensures Follows(e, r, AgentAfter(e, Booted(e.m, start, t0), turns))
    ensures OnlyPostedStarts(turns) ==> Wired(r, AgentAfter(e, Booted(e.m, start, t0), turns))
  {
    if turns == [] {
      r := BootFollows(e, start, t0);
    } else {
      var n := |turns| - 1;
      var before := AgentFollows(e, start, t0, turns[..n]);
      r := TakeKeeps(e, before, AgentAfter(e, Booted(e.m, start, t0), turns[..n]), turns[n]);
    }
  }

  lemma {:induction false} AnnouncePrefix(log: seq<Output>, k: nat)
    requires k <= |log|
    ensures AnnounceAll(log[..k]) <= AnnounceAll(log)
  {
    if k == |log| {
      assert log[..k] == log;
    } else {
      var n := |log| - 1;
      assert log[..n][..k] == log[..k];
      AnnouncePrefix(log[..n], k);
    }
  }

  /** The history handed to a client is one the gateway theorem speaks of. */
  lemma HandedOverHistory(e: Env, r: Run, i: nat, n: Net, k: nat)
    requires IsRun(e, r) && i <= |r.evs| && k <= |r.states[i].log| && HandedOver(n, r.states[i].log[..k])
    ensures InOrder(n.enqueued)
    ensures PostedByReports(r) || Disciplined(r) ==> WithinEtas(n.enqueued)
  {
    var log := r.states[i].log;
    AnnouncePrefix(log, k);
    var m := |AnnounceAll(log[..k])|;
    assert AnnounceAll(log)[..m] == AnnounceAll(log[..k]);
    var _ := GatewayHistory(e, r, i, m, n.enqueued);
    if PostedByReports(r) {
      PostedArrivals(e, r, i, m, n.enqueued);
    }
  }

  /** At every moment of the agent's life, under any events and any interleaving of the strand with the
      client's threads: the controller has followed a run, what the client was handed is conserved, and
      its reports are in order. As long as no one but the application calls startTrip, arrivals never
      outnumber ETA reports. */
  lemma AgentHistory(e: Env, start: Option<Gps>, t0: int, turns: seq<Turn>) returns (r: Run)
    requires Sound(e.m) && AllOwn(turns)
    ensures var a := AgentAfter(e, Booted(e.m, start, t0), turns);
      && IsRun(e, r) && r.evs == a.evs && Now(r) == a.ctrl && Conserved(a.net)
      && InOrder(a.net.enqueued)
      && (OnlyPostedStarts(turns) || Disciplined(r) ==> WithinEtas(a.net.enqueued))
  {
    var a := AgentAfter(e, Booted(e.m, start, t0), turns);
    r := AgentFollows(e, start, t0, turns);
    HandedOverHistory(e, r, |r.evs|, a.net, a.handled);
  }

  predicate InOrder(h: seq<VehicleEvent>) {
    TallyOf(h).completed <= TallyOf(h).inProgress <= TallyOf(h).arrived
  }

  predicate WithinEtas(h: seq<VehicleEvent>) {
    TallyOf(h).arrived <= TallyOf(h).etas
  }

  // ---- the agent as it runs ----

  class Agent {
    const node: AutowareController
    const app: AppCallbacks
    const client: StreamClient
    var handled: nat
    var posted: nat
    ghost var evs: seq<Timed>  // the events handled so far

    ghost predicate Valid()
      reads this, node, node.laneMap, node.laneMap.buffer, node.tripCtrl, app, client
    {
      node.Valid() && node.tripCtrl != null && app.client == client && Conserved(client.View())
    }

    ghost function View(): AgentState
      requires node.Valid() && node.tripCtrl != null
      reads this, node, node.laneMap, node.laneMap.buffer, node.tripCtrl, client
    {
      AgentState(node.tripCtrl.View(), evs, handled, posted, client.View())
    }

    constructor (node: AutowareController, client: StreamClient)
      requires node.Valid() && node.tripCtrl != null && Conserved(client.View())
      ensures this.node == node && this.client == client && fresh(app)
      ensures Valid() && View() == AgentState(node.tripCtrl.View(), [], 0, 0, client.View())
    {
      this.node, this.client, handled, posted, evs := node, client, 0, 0, [];
      app := new AppCallbacks(client);
    }

    /** The running handler's next callback into the application. */
    method MakeCallback()
      requires Valid()
      modifies this, app, client
      ensures Valid() && View() == AfterCallback(old(View()))
    {
      if handled < |node.tripCtrl.log| {
        ReportedConserves(client.View(), Announce(node.tripCtrl.log[handled]));
        var startTrip := app.HandleOutput(node.tripCtrl.log[handled]);
        if startTrip {
          posted := posted + 1;
        }
        handled := handled + 1;
      }
    }

    method FinishHandler()
      requires Valid()
      modifies this, app, client
      ensures Valid() && View() == Finished(old(View()))
    {
      while handled < |node.tripCtrl.log|
        invariant Valid() && Finished(View()) == Finished(old(View()))
        decreases |node.tripCtrl.log| - handled
      {
        MakeCallback();
      }
    }

    method HandleEvent(now: int, ev: Event)
      requires Valid()
      modifies this`evs, node.tripCtrl, node.laneMap`buffer, node.laneMap`size, node.laneMap.buffer
      ensures Valid() && node.laneMap.buffer == old(node.laneMap.buffer)
      ensures View() == Handled(node.TheEnv(), old(View()), now, ev)
    {
      var one := [Timed(now, ev)];
      node.RunStrand(one);
      assert one[..0] == [];
      evs := evs + one;
    }

    method TakeTurn(t: Turn)
      requires Valid()
      modifies this, app, client, node.tripCtrl, node.laneMap`buffer, node.laneMap`size, node.laneMap.buffer
      ensures Valid() && node.laneMap.buffer == old(node.laneMap.buffer)
      ensures View() == Take(node.TheEnv(), old(View()), t)
    {
      match t
      case Incoming(now, ev) =>
        FinishHandler();
        HandleEvent(now, ev);
      case PostedStart(now) =>
        FinishHandler();
        if posted > 0 {
          posted := posted - 1;
          HandleEvent(now, StartTrip);
        }
      case NextCallback => MakeCallback();
      case Thread(action) => client.Perform(action);
    }

    method TakeTurns(turns: seq<Turn>)
      requires Valid()
      modifies this, app, client, node.tripCtrl, node.laneMap`buffer, node.laneMap`size, node.laneMap.buffer
      ensures Valid() && View() == AgentAfter(node.TheEnv(), old(View()), turns)
    {
      var c := node.tripCtrl;
      for i := 0 to |turns|
        invariant Valid() && node.tripCtrl == c && node.laneMap.buffer == old(node.laneMap.buffer)
        invariant View() == AgentAfter(node.TheEnv(), old(View()), turns[..i])
      {
        assert turns[..i + 1][..i] == turns[..i];
        TakeTurn(turns[i]);
      }
      assert turns[..|turns|] == turns;
    }
  }

  method Assemble(w: World, name: string, start: Option<Gps>, t: Timings, t0: int) returns (a: Agent)
    requires WellFormed(w)
    ensures a.Valid() && a.node.TheEnv() == Env(Lanes(w), t) && a.View() == Booted(Lanes(w), start, t0)
    ensures fresh(a) && fresh(a.app) && fresh(a.client) && fresh(a.node.tripCtrl)
    ensures fresh(a.node.laneMap) && fresh(a.node.laneMap.buffer)
  {
    var node := new AutowareController(w, name, start, t);
    node.Initialize(t0);
    var client := new StreamClient();
    a := new Agent(node, client);
  }

  /** The whole agent on any map: its controller follows a run, what its client is handed is conserved
      and in order, and with startTrip called by the application alone arrivals never outnumber ETA
      reports. */
  method BootAndReport(w: World, name: string, start: Option<Gps>, t: Timings, t0: int, turns: seq<Turn>)
    returns (a: Agent, ghost r: Run)
    requires WellFormed(w) && AllOwn(turns)
    ensures a.Valid() && a.View() == AgentAfter(Env(Lanes(w), t), Booted(Lanes(w), start, t0), turns)
    ensures IsRun(Env(Lanes(w), t), r) && r.evs == a.evs && Now(r) == a.node.tripCtrl.View()
    ensures var h := a.client.View().enqueued;
      Conserved(a.client.View()) && InOrder(h) && (OnlyPostedStarts(turns) || Disciplined(r) ==> WithinEtas(h))
  {
    a := Assemble(w, name, start, t, t0);
    a.TakeTurns(turns);
    LanesSound(w);
    r := AgentHistory(Env(Lanes(w), t), start, t0, turns);
  }
}
