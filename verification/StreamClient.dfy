/** The outbound event queue of the gateway client across streams that die and are opened again. */
module StreamClients {
  import opened Base

  datatype Report = ARRIVED_AT_PICKUP | IN_PROGRESS | TRIP_COMPLETED | TRIP_CANCELLED | TRIP_ERROR

  datatype VehicleEvent =
    | TripInitAck
    | TripCancelAck(success: bool)
    | OrderUpdateLocationAck(success: bool)
    | Location(gps: Gps)
    | Eta(seconds: real, fare: real)
    | StatusReport(report: Report)
    | Arrive

  /** Where the writer thread is: not started, at its loop head, past the checks and about to pop,
      holding a popped event, or out of its loop. */
  datatype Writer = NoStream | Waiting | Armed | Holding(event: VehicleEvent) | Stopped

  /** The shared fields, the writer's position, whether the reconnect thread has passed its shutdown test
      and is about to connect, and the history: everything enqueued, how many events
      were popped, and which of them were written or lost and on which stream. */
  datatype Net = Net(
    queue: seq<VehicleEvent>,
    writer: Writer,
    streamDead: bool,
    shutdown: bool,
    connecting: bool,
    streams: nat,
    enqueued: seq<VehicleEvent>,
    popped: nat,
    written: seq<nat>,
    wire: seq<VehicleEvent>,
    lost: seq<nat>,
    lostOn: seq<nat>)

  const INITIAL := Net([], NoStream, false, false, false, 0, [], 0, [], [], [], [])

  /** The atomic actions of producers, writer, reader, watchdog and reconnect thread, in any order. */
  datatype Action =
    | Enqueue(event: VehicleEvent)
    | Reconnect
    | OpenStream
    | Check
    | Pop
    | Write(ok: bool)
    | StreamDies
    | Join
    | ShutDown

  /** An action that is not enabled changes nothing. */
  function Act(n: Net, a: Action): Net {
    match a
    case Enqueue(e) => n.(queue := n.queue + [e], enqueued := n.enqueued + [e])
    case Reconnect => if n.writer.NoStream? && !n.shutdown then n.(connecting := true) else n
    case OpenStream =>
      if n.writer.NoStream? && n.connecting then
        n.(writer := Waiting, streamDead := false, connecting := false, streams := n.streams + 1)
      else n
    case Check =>
      if !n.writer.Waiting? then n
      else if n.shutdown || n.streamDead then n.(writer := Stopped)
      else if n.queue == [] then n
      else n.(writer := Armed)
    case Pop =>
      if n.writer.Armed? && n.queue != [] then
        n.(writer := Holding(n.queue[0]), queue := n.queue[1..], popped := n.popped + 1)
      else n
    case Write(ok) =>
      if !n.writer.Holding? || n.popped == 0 then n
      else if ok then
        n.(writer := Waiting, written := n.written + [n.popped - 1], wire := n.wire + [n.writer.event])
      else
        n.(writer := Stopped, streamDead := true, lost := n.lost + [n.popped - 1], lostOn := n.lostOn + [n.streams])
    case StreamDies => if n.writer.NoStream? then n else n.(streamDead := true)
    case Join => if n.writer.Stopped? && n.streamDead then n.(writer := NoStream) else n
    case ShutDown => n.(shutdown := true)
  }

  function RunFrom(n: Net, actions: seq<Action>): Net {
    if actions == [] then n else Act(RunFrom(n, actions[..|actions|-1]), actions[|actions|-1])
  }

  function Run(actions: seq<Action>): Net {
    RunFrom(INITIAL, actions)
  }

  ghost predicate Increasing(s: seq<nat>) {
    forall i, j :: 0 <= i < j < |s| ==> s[i] < s[j]
  }

  /** The writer holds the k-th event. */
  predicate InFlight(n: Net, k: nat) {
    n.writer.Holding? && n.popped == k + 1
  }

  /** Exactly one thing happened to the popped event k. */
  predicate OneFate(n: Net, k: nat) {
    && (k in n.written || k in n.lost || InFlight(n, k))
    && !(k in n.written && k in n.lost) && !(k in n.written && InFlight(n, k)) && !(k in n.lost && InFlight(n, k))
  }

  ghost predicate Below(s: seq<nat>, bound: nat) {
    forall i :: 0 <= i < |s| ==> s[i] < bound
  }

  /** What was enqueued is what was popped followed by what is queued, in order. */
  ghost predicate QueueOk(n: Net) {
    && n.popped <= |n.enqueued| && n.enqueued[n.popped..] == n.queue
    && (n.writer.Armed? ==> n.queue != [])
    && (n.writer.Holding? ==> n.popped > 0 && n.writer.event == n.enqueued[n.popped-1])
  }

  /** Each popped event was written, or lost, or is in flight. */
  ghost predicate FatesOk(n: Net) {
    && Below(n.written, n.popped) && Below(n.lost, n.popped)
    && forall k :: 0 <= k < n.popped ==> OneFate(n, k)
  }

  /** The wire carries the written events in enqueue order, none twice. */
  ghost predicate WireOk(n: Net) {
    && Increasing(n.written) && Below(n.written, |n.enqueued|)
    && |n.wire| == |n.written| && (forall i :: 0 <= i < |n.wire| ==> n.wire[i] == n.enqueued[n.written[i]])
  }

  /** No stream lost more than one event, and one that lost an event is no longer written to. */
  ghost predicate StreamsOk(n: Net) {
    && |n.lost| == |n.lostOn| && Increasing(n.lostOn) && Below(n.lostOn, n.streams + 1)
    && (forall i :: 0 <= i < |n.lostOn| ==> 0 < n.lostOn[i])
    && (!n.writer.NoStream? ==> n.streams > 0)
    && (n.writer.Waiting? || n.writer.Armed? || n.writer.Holding? ==> Below(n.lostOn, n.streams))
  }

  ghost predicate Conserved(n: Net) {
    QueueOk(n) && FatesOk(n) && WireOk(n) && StreamsOk(n)
  }

  lemma QueueKept(n: Net, a: Action)
    requires QueueOk(n)
    ensures QueueOk(Act(n, a))
  {
  }

  lemma FatesKept(n: Net, a: Action)
    requires QueueOk(n) && FatesOk(n)
    ensures FatesOk(Act(n, a))
  {
    var n' := Act(n, a);
    if a.Write? && n.writer.Holding? {
      assert OneFate(n, n.popped - 1) && InFlight(n, n.popped - 1);
    }
    forall k | 0 <= k < n'.popped
      ensures OneFate(n', k)
    {
      assert k < n.popped ==> OneFate(n, k);
    }
  }

  lemma WireKept(n: Net, a: Action)
    requires QueueOk(n) && FatesOk(n) && WireOk(n)
    ensures WireOk(Act(n, a))
  {
    if a.Write? && a.ok && n.writer.Holding? {
      var k := n.popped - 1;
      forall i | 0 <= i < |n.written|
        ensures n.written[i] < k
      {
        assert n.written[i] in n.written;
        assert OneFate(n, n.written[i]) && InFlight(n, k);
      }
      IncreasingSnoc(n.written, k);
    }
  }

  lemma IncreasingSnoc(s: seq<nat>, x: nat)
    requires Increasing(s) && Below(s, x)
    ensures Increasing(s + [x]) && Below(s + [x], x + 1)
  {
  }

  lemma StreamsKept(n: Net, a: Action)
    requires QueueOk(n) && StreamsOk(n)
    ensures StreamsOk(Act(n, a))
  {
    if a.Write? && !a.ok && n.writer.Holding? {
      IncreasingSnoc(n.lostOn, n.streams);
    }
  }

  lemma ActConserves(n: Net, a: Action)
    requires Conserved(n)
    ensures Conserved(Act(n, a))
  {
    QueueKept(n, a);
    FatesKept(n, a);
    WireKept(n, a);
    StreamsKept(n, a);
  }

  predicate CountsAddUp(n: Net) {
    |n.enqueued| == |n.wire| + |n.lost| + |n.queue| + if n.writer.Holding? then 1 else 0
  }

  /** Queue conservation over every interleaving of producers, writer, stream deaths and reconnects. */
  lemma {:induction false} QueueConservation(actions: seq<Action>)
    ensures Conserved(Run(actions))
    ensures |Run(actions).lost| <= Run(actions).streams
    ensures CountsAddUp(Run(actions))
  {
    if actions != [] {
      var n := |actions| - 1;
      QueueConservation(actions[..n]);
      ActConserves(Run(actions[..n]), actions[n]);
      CountsKept(Run(actions[..n]), actions[n]);
    }
    var final := Run(actions);
    IncreasingBound(final.lostOn, final.streams);
  }

  function Openable(n: Net): nat {
    n.streams + if n.connecting then 1 else 0
  }

  lemma ShutdownStep(n: Net, a: Action)
    requires n.shutdown
    ensures Act(n, a).shutdown && Openable(Act(n, a)) <= Openable(n)
  {
  }

  /** After the shutdown at most one more stream is opened: one whose test came before it. */
  lemma {:induction false} AfterShutdown(n: Net, actions: seq<Action>)
    requires n.shutdown
    ensures RunFrom(n, actions).shutdown && Openable(RunFrom(n, actions)) <= Openable(n)
  {
    if actions != [] {
      var k := |actions| - 1;
      AfterShutdown(n, actions[..k]);
      ShutdownStep(RunFrom(n, actions[..k]), actions[k]);
    }
  }

  // ---- dead streams and the shutdown ----

  /** The writer is to stop. */
  predicate Down(n: Net) {
    n.shutdown || n.streamDead
  }

  /** The events that are popped already, or will be by a writer that is past its check. */
  function Taken(n: Net): nat {
    n.popped + if n.writer.Armed? then 1 else 0
  }

  lemma DownStep(n: Net, a: Action)
    requires Down(n) && (a.OpenStream? ==> n.shutdown)
    ensures Down(Act(n, a)) && (n.shutdown ==> Act(n, a).shutdown) && Taken(Act(n, a)) <= Taken(n)
  {
  }

  /** Once the stream is dead, until another is opened, and once the shutdown is set, for ever, at most one
      more event is popped, and only by a writer that is already past its check. All others stay queued. */
  lemma {:induction false} DownPopsNoMore(n: Net, actions: seq<Action>)
    requires n.shutdown || (n.streamDead && forall i :: 0 <= i < |actions| ==> !actions[i].OpenStream?)
    ensures var n' := RunFrom(n, actions);
      Down(n') && (n.shutdown ==> n'.shutdown) && n'.popped <= n.popped + if n.writer.Armed? then 1 else 0
    ensures Taken(RunFrom(n, actions)) <= Taken(n)
  {
    if actions != [] {
      var k := |actions| - 1;
      DownPopsNoMore(n, actions[..k]);
      DownStep(RunFrom(n, actions[..k]), actions[k]);
    }
  }

  lemma {:induction false} RunCons(n: Net, a: Action, actions: seq<Action>)
    ensures RunFrom(n, [a] + actions) == RunFrom(Act(n, a), actions)
  {
    if actions != [] {
      var k := |actions| - 1;
      RunCons(n, a, actions[..k]);
      assert ([a] + actions)[..k + 1] == [a] + actions[..k];
    } else {
      assert [a] + actions == [a] && [a][..0] == [];
    }
  }

  /** When the reader or the watchdog ends a stream, or the shutdown is set, a waiting writer stops at its
      next check, with the queue as it was; a dead stream is then joined. */
  lemma WaitingWriterStops(n: Net, a: Action)
    requires n.writer.Waiting? && (a.StreamDies? || a.ShutDown?)
    ensures var n' := RunFrom(n, [a, Check]); n'.writer.Stopped? && n'.queue == n.queue && n'.popped == n.popped
    ensures a.StreamDies? ==> RunFrom(n, [a, Check, Join]).writer.NoStream?
  {
    RunCons(n, a, [Check]);
    RunCons(Act(n, a), Check, []);
    RunCons(n, a, [Check, Join]);
    RunCons(Act(n, a), Check, [Join]);
    RunCons(Act(Act(n, a), Check), Join, []);
    assert [a] + [Check] == [a, Check] && [Check] + [] == [Check];
    assert [a] + [Check, Join] == [a, Check, Join] && [Check] + [Join] == [Check, Join] && [Join] + [] == [Join];
  }

  // ---- delivery ----

  /** What the threads do next when nothing fails: the writer goes on, a stopped one is joined, and
      another stream is opened. */
  function Onward(n: Net): Action {
    match n.writer
    case NoStream => if n.connecting then Action.OpenStream else Reconnect
    case Waiting => Check
    case Armed => Pop
    case Holding(_) => Write(true)
    case Stopped => if n.streamDead then Join else StreamDies
  }

  /** How far the writer is from holding another event. */
  function StepsLeft(n: Net): nat {
    match n.writer
    case Armed => 1
    case Waiting => if n.streamDead then 7 else 2
    case NoStream => if n.connecting then 3 else 4
    case Stopped => if n.streamDead then 5 else 6
    case Holding(_) => 8
  }

  /** Event k has been enqueued and not lost: it is queued or held. */
  predicate Undelivered(n: Net, k: nat) {
    n.popped <= k < |n.enqueued| || InFlight(n, k)
  }

  lemma OnwardStep(n: Net, k: nat)
    requires Conserved(n) && !n.shutdown && Undelivered(n, k)
    ensures var n' := Act(n, Onward(n));
      && Conserved(n') && !n'.shutdown && n'.lost == n.lost && n'.enqueued == n.enqueued
      && (k in n'.written
          || (Undelivered(n', k) && (n'.popped > n.popped || (n'.popped == n.popped && StepsLeft(n') < StepsLeft(n)))))
  {
    ActConserves(n, Onward(n));
  }

  /** From any state before the shutdown every queued event can still be delivered, without losing any: a
      writer that finds its stream dead stops, is joined, and another stream goes on with the queue. */
  lemma {:induction false} EventuallyDelivered(n: Net, k: nat) returns (actions: seq<Action>)
    requires Conserved(n) && !n.shutdown && Undelivered(n, k)
    ensures k in RunFrom(n, actions).written && RunFrom(n, actions).lost == n.lost
    ensures RunFrom(n, actions).enqueued == n.enqueued && Conserved(RunFrom(n, actions))
    decreases |n.enqueued| - n.popped, StepsLeft(n)
  {
    var a := Onward(n);
    OnwardStep(n, k);
    var rest := [];
    if k !in Act(n, a).written {
      rest := EventuallyDelivered(Act(n, a), k);
    }
    actions := [a] + rest;
    RunCons(n, a, rest);
  }

  lemma CountsKept(n: Net, a: Action)
    requires Conserved(n)
    requires CountsAddUp(n)
    ensures CountsAddUp(Act(n, a))
  {
  }

  lemma {:induction false} IncreasingBound(s: seq<nat>, m: nat)
    requires Increasing(s) && Below(s, m + 1) && forall i :: 0 <= i < |s| ==> 0 < s[i]
    ensures |s| <= m
  {
    if s != [] {
      var n := |s| - 1;
      IncreasingBound(s[..n], s[n] - 1);
    }
  }

  /** The client object: producers call Enqueue, the other methods are the critical sections of its
      threads. */
  class StreamClient {
    var writeQueue: seq<VehicleEvent>
    var writer: Writer
    var streamDead: bool
    var shutdown: bool
    var connecting: bool
    ghost var history: Net  // streams and the history parts of the state

    ghost function View(): Net
      reads this
    {
      history.(queue := writeQueue, writer := writer, streamDead := streamDead,
               shutdown := shutdown, connecting := connecting)
    }

    constructor ()
      ensures View() == INITIAL
    {
      writeQueue, writer, streamDead, shutdown, connecting := [], NoStream, false, false, false;
      history := INITIAL;
    }

    method Enqueue(e: VehicleEvent)
      modifies this
      ensures View() == Act(old(View()), Action.Enqueue(e))
    {
      writeQueue := writeQueue + [e];
      history := history.(enqueued := history.enqueued + [e]);
    }

    /** The test of the reconnect loop. */
    method TestShutdown()
      modifies this
      ensures View() == Act(old(View()), Reconnect)
    {
      if writer == NoStream && !shutdown {
        connecting := true;
      }
    }

    method OpenStream()
      modifies this
      ensures View() == Act(old(View()), Action.OpenStream)
    {
      if writer == NoStream && connecting {
        connecting := false;
        streamDead := false;
        writer := Waiting;
        history := history.(streams := history.streams + 1);
      }
    }

    /** The head of the writer's loop: stop, wait on, or go on to pop. */
    method CheckQueue()
      modifies this
      ensures View() == Act(old(View()), Check)
    {
      if writer == Waiting {
        if shutdown || streamDead {
          writer := Stopped;
        } else if writeQueue != [] {
          writer := Armed;
        }
      }
    }

    method PopFront()
      modifies this
      ensures View() == Act(old(View()), Pop)
    {
      if writer == Armed && writeQueue != [] {
        writer := Holding(writeQueue[0]);
        writeQueue := writeQueue[1..];
        history := history.(popped := history.popped + 1);
      }
    }

    /** The result of Write: on failure the stream is declared dead and the writer leaves its loop. */
    method FinishWrite(ok: bool)
      requires Conserved(View())
      modifies this
      ensures View() == Act(old(View()), Write(ok))
    {
      if !writer.Holding? {
        return;
      }
      ghost var k := history.popped - 1;
      if ok {
        history := history.(written := history.written + [k], wire := history.wire + [writer.event]);
        writer := Waiting;
      } else {
        history := history.(lost := history.lost + [k], lostOn := history.lostOn + [history.streams]);
        streamDead := true;
        writer := Stopped;
      }
    }

    /** The reader's loop has ended or the watchdog gave up. */
    method DeclareDead()
      modifies this
      ensures View() == Act(old(View()), StreamDies)
    {
      if writer != NoStream {
        streamDead := true;
      }
    }

    method JoinWriter()
      modifies this
      ensures View() == Act(old(View()), Join)
    {
      if writer == Stopped && streamDead {
        writer := NoStream;
      }
    }

    method Shutdown()
      modifies this
      ensures View() == Act(old(View()), ShutDown)
    {
      shutdown := true;
    }

    /** One atomic action of any thread. */
    method Perform(a: Action)
      requires Conserved(View())
      modifies this
      ensures View() == Act(old(View()), a) && Conserved(View())
    {
      ActConserves(View(), a);
      match a
      case Enqueue(e) => Enqueue(e);
      case Reconnect => TestShutdown();
      case OpenStream => OpenStream();
      case Check => CheckQueue();
      case Pop => PopFront();
      case Write(ok) => FinishWrite(ok);
      case StreamDies => DeclareDead();
      case Join => JoinWriter();
      case ShutDown => Shutdown();
    }
  }

  /** The object under any interleaving of its threads is in the specified state, with everything
      accounted for. */
  method RunClient(actions: seq<Action>) returns (c: StreamClient)
    ensures fresh(c) && c.View() == Run(actions) && Conserved(c.View())
  {
    c := new StreamClient();
    for i := 0 to |actions|
      invariant fresh(c) && c.View() == Run(actions[..i]) && Conserved(c.View())
    {
      assert actions[..i + 1][..i] == actions[..i];
      c.Perform(actions[i]);
    }
    assert actions[..|actions|] == actions;
  }
}
