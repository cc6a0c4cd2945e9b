# Verified model of the Autoware agent

The agent sits between the Autoware stack and a remote gateway. It resolves requested
coordinates to lanes of the loaded map, quotes a trip (vehicle to pickup, pickup to
destination), drives it leg by leg, and reports to the gateway over streams that may die.

This project models that core in Dafny and proves what holds in every run:

* **The lane resolver** (`Projection.dfy`, `LaneSpec.dfy`, `Lookups.dfy`, `LaneletMap.dfy`,
  `FloodFill.dfy`).
  `LaneletMaps.LaneletMap` is the object with its search loops and its vector of cached lanes; the
  vector's storage is an array, a returned pointer is that array and an index, and growing it would
  move the entries. `LaneSpec` gives the same lookups as functions of map and cache and compares them
  with searches that never look at the cache; `Lookups` says what the lookups answer in terms of the map
  and of the requested coordinates alone.
* **The trip controller** (`TripSpec.dfy`, `TripController.dfy`, `AutowareController.dfy`).
  `TripControllers.TripController` is the object; `TripSpec` is its state machine, one function call
  per event handled on the strand, with the clock, the vehicle pose and the service readiness as
  parameters and with everything sent out appended to a log. Each method is proved equal to its
  function, and `AutowareControllers.BootAndRun` shows that an object built on a map and fed any
  events follows a run of that machine. The machine sees the map as a `Resolver`
  (`Resolver.dfy`), so that its theorems hold for every sound resolver; every loaded map is one
  (`Resolvers.LanesSound`).
* **Runs** (`Runs.dfy`, `Steps.dfy`, `Outputs.dfy`, `History.dfy`, `Background.dfy`,
  `Quotes.dfy`, `Timing.dfy`, `Callbacks.dfy`, `NoLeak.dfy`, `OnMap.dfy`). A run is any finite sequence of timed events from boot: ticks,
  messages, commands and engage replies in any order. `Runs.Inv` holds in every reachable state;
  `Steps.StepFacts` and `Outputs.StepSends` say what one step may change and send; the other files
  prove properties of whole runs from these.
* **The gateway side** (`Gateway.dfy`, `StreamClient.dfy`, `Agent.dfy`): what the application enqueues
  for each controller step, what the gateway may conclude from it, and the outbound queue across streams.
  `Agents.Agent` puts the objects together: a map, a controller under any events, the callbacks of the
  application with the `startTrip` they post, and a client under any interleaving of its threads.
* **Scenarios** (`Scenarios.dfy`): controller runs built event by event, from boot on two concrete maps,
  which show what the conditions below are needed for.

## Properties that turn out to be conditional

* The leg flag `engaging_for_pickup_` is reset by `startTrip` before its guards. While engaging it names
  the leg being driven if and only if that leg is the pickup leg or no `startTrip` was handled since the
  move command (`History.FlagWhileEngaging`). `History.StrayStartTripMislabels` gives the two events that
  turn the trip leg into a drive to the pickup.
* The gateway is told of no more arrivals than it was sent ETA reports (`Agents.AgentHistory`), but that
  rests on the application, not on the controller. Each arrival uses up a `startTrip` of its own
  (`Gateway.ArrivalsStarted`), and the application calls `startTrip` only from the callback of a
  successful query, after its report (`Agents.PostsStart`), however late the posted command is handled.
  The controller alone takes `startTrip` and `queryEta` from any caller. There one arrival repeats
  another of the same trip if and only if a `startTrip` was handled while its own engagement was pending
  (`Gateway.RepeatedArrival`); over whole runs every report is accounted for (`Gateway.Accounts`); and
  arrivals stay within ETA reports at every moment if and only if the trips turned over in this way and
  the quotes without a callback are made up for by cancelled quotes and a pending pickup
  (`Gateway.ArrivalsCovered`). `Scenarios.SecondArrivalFromBoot` and `Scenarios.UnreportedArrivalFromBoot`
  are controller runs from boot with other callers than the application: one calls `startTrip` twice for
  one report, the other gives `queryEta` no callback.
* An observer of the notifications knows the phase except exactly after a reset by `cancel` or by a
  failing query that no notification has followed (`Callbacks.ObserverView`): both overwrite the
  status before they change to IDLE, so the change is not seen as one (`Scenarios.ObserverCanBeWrong`).
* `queryEta` is documented to return success or failure. It returns true for every query of an idle,
  localised controller; whether a leg was started is another condition (`Steps.QueryEtaOutcome`).
  `Scenarios.AcceptedQueryFails` shows it on a map of one crosswalk: true, and the failure already reported.
* The header describes `startTrip` as localising and engaging; the code only resolves the pickup lane
  and waits for `goToPickup`. The header describes a lane's position as its centroid; the code projects
  the first coordinate that hit the lane. The model follows the code in both.

## Model

| member | source | states |
|---|---|---|
| Projection.ProjectOntoCenterline | src/map_routes/LaneletMap.cc:409-448 | the returned point lies on some segment and no point of any segment is closer to the target |
| Projection.ProjectionIsOptimal | src/map_routes/LaneletMap.cc:419-447 | the same for the projection function, for every polyline of at least two points, zero-length segments and both clamped ends included |
| Projection.FootIsNearest | src/map_routes/LaneletMap.cc:428-437 | on one segment the clamped foot of the perpendicular beats every other parameter in [0, 1] |
| Projection.BestPointIsFirstBest | src/map_routes/LaneletMap.cc:420-442 | the loop keeps the first segment candidate of least distance |
| LaneSpec.BestIsFirstNearest | src/map_routes/LaneletMap.cc:107-142 | the search finds nothing exactly when no candidate is drivable with a centerline, else the first candidate of least midpoint distance |
| LaneSpec.Reaching | src/map_routes/LaneletMap.cc:341-354 | the reverse search looks at exactly the lanes from which the reference can be reached |
| LaneSpec.AskFacts | src/map_routes/LaneletMap.cc:144-155 | one lookup appends at most one entry, overwrites none, and answers the cached entry of the naively found lane |
| LaneSpec.CacheOverHistory | src/map_routes/LaneletMap.cc:53-56 | over any lookup history cached ids stay distinct map ids, the cache never exceeds the reserved capacity and only grows at its end |
| LaneSpec.FirstHitBuildsEntry | src/map_routes/LaneletMap.cc:144-155 | each entry was built by the first lookup that hit its lane, from that lookup's coordinate |
| LaneSpec.CachedSearchRefinesNaive | src/map_routes/LaneletMap.cc:93-191 | after any history a lookup throws exactly for an unknown reference or an uncached lane without centerline, is otherwise null exactly when the naive search finds nothing, and else names the naive lane with its heading and the position of the first hit |
| Lookups.LookupMeaning | src/map_routes/LaneletMap.cc:93-405 | after any history a lookup answers the first nearest passable candidate of the right set, with its heading, at the point of its centerline nearest to the first coordinate that hit it, and null exactly when there is no candidate |
| Lookups.NaiveMeaning | src/map_routes/LaneletMap.cc:107-142 | the searches are about the first of the passable lanes, reachable or reaching where asked, whose shifted middle point is nearest |
| LaneSpec.WithinCapacity | src/map_routes/LaneletMap.cc:56 | a good cache is no larger than the map |
| LaneletMaps.LaneletMap.constructor | src/map_routes/LaneletMap.cc:34-73 | an empty cache with capacity for every lane |
| LaneletMaps.LaneletMap.EmplaceBack | src/map_routes/LaneletMap.cc:155 | appends; the storage moves only when the capacity is used up |
| LaneletMaps.LaneletMap.SearchNearest | src/map_routes/LaneletMap.cc:107-142 | the loop returns the invalid id exactly when nothing qualifies, else the id of the best lane |
| LaneletMaps.LaneletMap.Scan | src/map_routes/LaneletMap.cc:145-152 | a pointer to the entry with the id, or null when there is none |
| LaneletMaps.LaneletMap.BuildLaneInfo | src/map_routes/LaneletMap.cc:243-258 | the entry of a lane: the projection onto its centerline by the loop above, and its heading |
| LaneletMaps.LaneletMap.Resolve | src/map_routes/LaneletMap.cc:144-172 | the storage stays where it is, older entries keep index and value, the pointer denotes the answer |
| LaneletMaps.LaneletMap.FindNearestLane | src/map_routes/LaneletMap.cc:93-173 | equals the specified lookup, with pointer stability |
| LaneletMaps.LaneletMap.CollectReaching | src/map_routes/LaneletMap.cc:345-353 | the nested loops collect the lanes that can reach the reference |
| LaneletMaps.LaneletMap.FindNearestConnectedLane | src/map_routes/LaneletMap.cc:324-405 | equals the specified lookup; an unknown reference id throws |
| LaneletMaps.LaneletMap.GetLaneById | src/map_routes/LaneletMap.cc:175-191 | equals the specified lookup, cached entries first |
| LaneletMaps.LaneletMap.RunLookups | src/map_routes/LaneletMap.h:109-110 | after any sequence of lookups every pointer ever returned still denotes the entry it denoted then |
| LaneletMaps.LaneletMap.SetDefaultStart | src/map_routes/LaneletMap.cc:193-216 | the start takes the position and heading of the nearest lane, or the raw projection when there is none |
| FloodFill.Visit | src/map_routes/LaneletMap.cc:483-488 | marks all given neighbours and queues exactly the new ones, once each |
| FloodFill.Flood | src/map_routes/LaneletMap.cc:472-508 | terminates with exactly what the seed reaches outside the earlier components, without repetitions |
| FloodFill.Components | src/map_routes/LaneletMap.cc:456-511 | for any graph: every drivable lane is in a component and component i is what its drivable seed reaches less the earlier ones |
| FloodFill.FloodedDisjoint | src/map_routes/LaneletMap.cc:456-511 | components are pairwise disjoint |
| FloodFill.FloodedAreClasses | src/map_routes/LaneletMap.cc:470-471 | with symmetric neighbours each component is a connectivity class |
| FloodFill.SortIsSorted | src/map_routes/LaneletMap.cc:513-516 | the sorted components are ordered by size, largest first |
| FloodFill.SortBySize | src/map_routes/LaneletMap.cc:513-516 | sorting keeps the multiset of components |
| FloodFill.DebugConnectedComponents | src/map_routes/LaneletMap.cc:450-516 | the final list is sorted, covers the drivable lanes, and holds each disjoint connectivity class once |
| Resolvers.LanesSound | src/map_routes/LaneletMap.cc:93-405 | every loaded map answers lookups as the controller's theorems demand |
| Resolvers.GoalIsReachable | src/map_routes/LaneletMap.cc:339-384 | the goal of a leg is a usable lane of the start's reachable set, the first nearest to the request |
| TripControllers.TripController.constructor | src/gateway_bridge/include/TripController.h:116-169 | the initial values of all fields |
| TripControllers.TripController.ChangeState | src/gateway_bridge/src/TripController.cc:841-852 | records the change, restarts both timers and notifies, unless the state is already the next one |
| TripControllers.TripController.Fail | src/gateway_bridge/src/TripController.cc:653-669 | answers the pending callback and resets query, bank and status |
| TripControllers.TripController.LegToGoal | src/gateway_bridge/src/TripController.cc:500-542 | resolves the goal from the start lane; the start pointer stays valid over the later lookups |
| TripControllers.TripController.StartLeg | src/gateway_bridge/src/TripController.cc:485-543 | both legs' start: nearest lane or the previous goal lane, then the goal |
| TripControllers.TripController.FinishPickup | src/gateway_bridge/src/TripController.cc:546-568 | banks the pickup leg and starts the trip leg |
| TripControllers.TripController.FinishTrip | src/gateway_bridge/src/TripController.cc:570-650 | banks the trip leg, answers the query and announces ROUTES_READY |
| TripControllers.TripController.InitializeInMap | src/gateway_bridge/src/TripController.cc:93-114 | publishes the fixed start pose, if there is one, and waits for localisation |
| TripControllers.TripController.QueryEta | src/gateway_bridge/src/TripController.cc:116-170 | refusals and acceptance of a query with the whole new state |
| TripControllers.TripController.GoToPickup | src/gateway_bridge/src/TripController.cc:172-188 | accepted only while waiting for it; empties the mailbox |
| TripControllers.TripController.StartTrip | src/gateway_bridge/src/TripController.cc:201-241 | resets flag and mailbox even when refused |
| TripControllers.TripController.Move | src/gateway_bridge/src/TripController.cc:243-293 | publishes the trip goal and engages |
| TripControllers.TripController.HandleMoveCommand | src/gateway_bridge/src/TripController.cc:190-199 | dispatch by state |
| TripControllers.TripController.CancelTrip | src/gateway_bridge/src/TripController.cc:295-317 | discards query, bank and status and publishes the start pose |
| TripControllers.TripController.TickQuery | src/gateway_bridge/src/TripController.cc:345-417 | the five query stages |
| TripControllers.TripController.TickDrive | src/gateway_bridge/src/TripController.cc:443-481 | engaging and the two drives |
| TripControllers.TripController.OnTick | src/gateway_bridge/src/TripController.cc:319-483 | the whole tick |
| TripControllers.TripController.Handle | src/gateway_bridge/src/AutowareController.cc:118-203 | one strand closure equals one step of the state machine |
| AutowareControllers.AutowareController.constructor | src/gateway_bridge/src/AutowareController.cc:25-69 | builds the map and resolves the configured start |
| AutowareControllers.AutowareController.Initialize | src/gateway_bridge/src/AutowareController.cc:83-108 | the controller starts in the boot state |
| AutowareControllers.AutowareController.RunStrand | src/gateway_bridge/src/AutowareController.cc:110-132 | handling events in sequence equals executing them on the state machine |
| AutowareControllers.BootAndRun | src/gateway_bridge/src/AutowareController.cc:25-116 | an object built on any well-formed map and fed any events follows a run |
| Runs.InvAt | src/gateway_bridge/src/TripController.cc:116-669 | every reachable state keeps the phase-indexed invariant on bank, lanes, cache and callback |
| Runs.StepInv | src/gateway_bridge/src/TripController.cc:116-669 | every event keeps the invariant |
| Runs.TripsNeverFail | src/gateway_bridge/src/TripController.cc:206-267 | no run enters FAILED or throws; startTrip succeeds exactly in ROUTES_READY and move exactly in WAITING_FOR_MOVE |
| Runs.StartTripInv | src/gateway_bridge/src/TripController.cc:201-241 | startTrip keeps the invariant and changes the state exactly in ROUTES_READY |
| Runs.MoveInv | src/gateway_bridge/src/TripController.cc:243-293 | move keeps the invariant and changes the state exactly in WAITING_FOR_MOVE |
| Runs.ExecIsRun | src/gateway_bridge/src/AutowareController.cc:83-132 | handling any events after boot is a run |
| Steps.FactsOfStep | src/gateway_bridge/src/TripController.cc:116-483 | the phase graph, who empties the mailbox, who sets the leg flag, and what a stay keeps |
| Steps.QueryEtaOutcome | src/gateway_bridge/src/TripController.cc:168-169 | queryEta returns true although no leg starts, exactly when a lane is missing or nothing is in reach |
| Steps.QueryEtaReply | src/gateway_bridge/src/TripController.cc:116-170 | queryEta says true exactly to a query of an idle, localised controller |
| Background.LocalisationIsKnown | src/gateway_bridge/src/TripController.cc:330-354 | a wait for localisation, at boot, in a query or before the drive, is ended by a tick if and only if the last localisation message said INITIALIZED |
| Background.EngageOnlyWhenAvailable | src/gateway_bridge/src/TripController.cc:723-733 | an engage request is sent exactly when the services are ready and no mode message, or the last, says unavailable |
| Background.BootPublishesStart | src/gateway_bridge/src/TripController.cc:93-114 | a configured start is published at boot and kept, without one nothing is |
| Background.InitialPoseIsStart | src/gateway_bridge/src/TripController.cc:419-436 | every initial pose published outside a query, or on a cancel, is the configured start |
| Background.PositionIsLast | src/gateway_bridge/src/AutowareController.cc:193-203 | the reported position is that of the last tick that had one, or the origin since the last reset |
| Outputs.SendsOfStep | src/gateway_bridge/src/TripController.cc:116-483 | the publication, callback, notification and reply of each step, in order |
| History.RouteSetIsFresh | src/gateway_bridge/src/TripController.cc:370-402 | the SET that ends a route wait came after that leg's goal was published |
| History.PickupArrivalIsFresh | src/gateway_bridge/src/TripController.cc:450-464 | the ARRIVED that ends the pickup drive came after goToPickup |
| History.TripArrivalIsFresh | src/gateway_bridge/src/TripController.cc:467-480 | the ARRIVED that completes the trip came after move |
| History.TriggersAreDistinct | src/gateway_bridge/src/TripController.cc:374-480 | no route message triggers two transitions |
| History.FlagWhileEngaging | src/gateway_bridge/src/TripController.cc:202 | exactly when the leg flag says pickup while engaging |
| History.StrayStartTripMislabels | src/gateway_bridge/src/TripController.cc:201-204 | a refused startTrip while the trip leg is being engaged turns the trip into a pickup drive |
| History.TripDriveEntry | src/gateway_bridge/src/TripController.cc:756-763 | RUNNING is entered only from an engagement that followed a move command |
| History.TripOrder | src/gateway_bridge/src/TripController.cc:239-480 | RUNNING or COMPLETED implies all milestones of the trip in order with no cancel in between |
| Quotes.StepKeeps | src/map_routes/LaneletMap.cc:144-155 | no step changes the pose of a cached lane |
| Quotes.PickupDrivenIsQuoted | src/gateway_bridge/src/TripController.cc:218-232 | every goal quoted for the pickup leg has the lane and pose of the goal driven to the pickup |
| Quotes.TripDrivenIsQuoted | src/gateway_bridge/src/TripController.cc:255-288 | the goal move publishes has the lane and pose of every goal quoted for the trip leg |
| Quotes.EveryTripWasQuoted | src/gateway_bridge/src/TripController.cc:370-377 | each trip was quoted in both legs, in order, without a reset since |
| Quotes.DriveToPickupWasQuoted | src/gateway_bridge/src/TripController.cc:437-439 | the goal sent to drive to the pickup was sent before to quote it |
| Quotes.DriveOfTripWasQuoted | src/gateway_bridge/src/TripController.cc:287-288 | the goal sent by move was sent before to quote the trip leg |
| Quotes.EtaProvenance | src/gateway_bridge/src/TripController.cc:401-417 | a leg is quoted with the last ETA injected while it waited for one, or zero if none came |
| Quotes.SuccessfulQuote | src/gateway_bridge/src/TripController.cc:545-580 | in every successful result each leg's figures are the last ETA of its own wait or zero, the trip leg starts where the pickup leg ends, and each goal is the one resolved from its start |
| Quotes.SuccessfulQuoteOnMap | src/gateway_bridge/src/TripController.cc:485-531 | on a loaded map each leg's goal is the first lane nearest to the request in the reachable set of the leg's start |
| Quotes.QuoteOfRequest | src/gateway_bridge/src/TripController.cc:150-169 | every successful result answers an accepted request: from the lane nearest to the vehicle then, to the requested start, to the requested goal |
| OnMap.QuoteOnMap | src/gateway_bridge/src/TripController.cc:485-531 | on a loaded map the three lanes of a quote are the vehicle's nearest lane and the nearest lanes to start and goal among those reachable |
| OnMap.GoalsOnLanes | src/gateway_bridge/src/TripController.cc:696-720 | every goal that is published lies on the centerline of a lane of the map and has its heading |
| OnMap.GoalDistance | src/gateway_bridge/src/TripController.cc:525-540 | while a leg is quoted the recorded goal is the requested coordinate, and the recorded distance that of the goal pose from it |
| OnMap.QueryPosesOnLanes | src/gateway_bridge/src/TripController.cc:345-359 | so does every initial pose published to quote a leg |
| OnMap.StartOnMap | src/map_routes/LaneletMap.cc:193-216 | the configured start is the point of the nearest lane nearest to the configured coordinate, or the bare coordinate when there is no lane |
| Timing.QueryIsBounded | src/gateway_bridge/src/TripController.cc:345-417 | no event finds a query unfinished after 2 (loc + route + eta) + 10 D ms |
| Timing.QueryEnds | src/gateway_bridge/include/TripTimings.h:24-26 | each uncancelled query ends in ROUTES_READY or IDLE within the bound and fires its callback |
| Timing.QueryEndsByDefault | src/gateway_bridge/include/TripTimings.h:24-26 | with the default timings the bound is 124 s and ten tick intervals |
| Timing.RepublishBound | src/gateway_bridge/src/TripController.cc:334-337 | in a stay of length T at most 1 + T / period repetitions, the step that ends the stay counted |
| Timing.RepeatsPublishes | src/gateway_bridge/src/TripController.cc:429-447 | what counts as a repetition is what the tick publishes while waiting or engaging |
| Timing.StayBegins | src/gateway_bridge/src/TripController.cc:845-848 | entering a state, or boot, restarts both timers |
| Callbacks.CallbackBalance | src/gateway_bridge/src/TripController.cc:122-157 | per callback: submitted = fired + dropped by cancel + pending |
| Callbacks.NoCallbackFiresTwice | src/gateway_bridge/src/TripController.cc:640-668 | a callback submitted once fires at most once |
| Callbacks.PendingExactly | src/gateway_bridge/src/TripController.cc:150-157 | a callback is pending only during a query, and it is that query's own |
| Callbacks.FailureReason | src/gateway_bridge/src/TripController.cc:485-531 | the callback of a failing query is told why: no lane under the vehicle, nothing in reach, or which wait timed out in which leg |
| Callbacks.ObserverView | src/gateway_bridge/src/TripController.cc:841-851 | the phase seen in notifications is wrong exactly after a silent reset, and then it is IDLE |
| Callbacks.NotificationsChain | src/gateway_bridge/src/TripController.cc:648-649 | each notification leaves the last announced phase or IDLE; a successful query is seen as IDLE to ROUTES_READY |
| NoLeak.StepBlind | src/gateway_bridge/src/TripController.cc:116-317 | a step's outputs and readable outcome depend only on the fields the phase can read |
| NoLeak.NoLeakBetweenTrips | src/gateway_bridge/src/TripController.cc:116-669 | two idle controllers that differ only in stale fields send the same on every timed event sequence |
| StreamClients.ActConserves | src/gateway_bridge/include/VehicleGatewayStreamClient.h:209-233 | every atomic action keeps queue, fates, wire order and stream losses accounted for |
| StreamClients.QueueConservation | src/gateway_bridge/include/VehicleGatewayStreamClient.h:168-304 | over every interleaving: popped then queued is the enqueue history, written events are in order without duplicates, each stream loses at most one |
| StreamClients.DownPopsNoMore | src/gateway_bridge/include/VehicleGatewayStreamClient.h:209-233 | once a stream is dead or the shutdown set, at most one more event is popped, by a writer already past its check |
| StreamClients.WaitingWriterStops | src/gateway_bridge/include/VehicleGatewayStreamClient.h:210-220 | a waiting writer of a stream that dies stops at its next check, leaves the queue alone and is joined |
| StreamClients.EventuallyDelivered | src/gateway_bridge/include/VehicleGatewayStreamClient.h:168-233 | from any state before the shutdown every queued event can still be written, on another stream if this one is dead, without losing any |
| StreamClients.AfterShutdown | src/gateway_bridge/include/VehicleGatewayStreamClient.h:168-181 | after the shutdown at most one more stream is opened, one whose test came before |
| StreamClients.RunClient | src/gateway_bridge/include/VehicleGatewayStreamClient.h:168-304 | the object under any interleaving of its threads is in the specified, conserved state |
| StreamClients.StreamClient.Enqueue | src/gateway_bridge/include/VehicleGatewayStreamClient.h:298-304 | appends to the queue |
| StreamClients.StreamClient.CheckQueue | src/gateway_bridge/include/VehicleGatewayStreamClient.h:210-220 | the writer stops, waits or goes on |
| StreamClients.StreamClient.PopFront | src/gateway_bridge/include/VehicleGatewayStreamClient.h:221-222 | takes the oldest event |
| StreamClients.StreamClient.FinishWrite | src/gateway_bridge/include/VehicleGatewayStreamClient.h:224-230 | success continues; failure loses the event and ends the stream |
| StreamClients.StreamClient.TestShutdown | src/gateway_bridge/include/VehicleGatewayStreamClient.h:168-170 | the reconnect loop goes on to connect unless it has seen the shutdown |
| StreamClients.StreamClient.OpenStream | src/gateway_bridge/include/VehicleGatewayStreamClient.h:183-190 | after the test a new stream starts a writer on the same queue |
| StreamClients.StreamClient.DeclareDead | src/gateway_bridge/include/VehicleGatewayStreamClient.h:194-207 | reader or watchdog ends the stream |
| StreamClients.StreamClient.JoinWriter | src/gateway_bridge/include/VehicleGatewayStreamClient.h:287-291 | a stopped writer of a dead stream is joined |
| Gateway.Accounts | src/gateway_bridge/src/TripController.cc:201-316 | in every run ETA reports, unreported quotes and turned-over trips balance arrivals, cancelled quotes and the pending pickup, and so on down to COMPLETED |
| Gateway.GatewayHistory | src/AutowareApp.cpp:176-194 | in every prefix COMPLETED <= IN_PROGRESS <= ARRIVED_AT_PICKUP, and ARRIVED_AT_PICKUP <= ETA reports exactly when the accounts are covered, whoever calls the controller |
| Gateway.ArrivalsCovered | src/AutowareApp.cpp:115-138 | arrivals stay within ETA reports at every moment if and only if the accounts are covered at every state |
| Gateway.ArrivalsStarted | src/gateway_bridge/src/TripController.cc:201-241 | in every run each arrival has used up a startTrip of its own, accepted or stray |
| Gateway.PostedArrivals | src/AutowareApp.cpp:121-138 | where each startTrip handled was posted by an ETA report of its own, arrivals never outnumber ETA reports |
| Gateway.RepeatedArrival | src/gateway_bridge/src/TripController.cc:201-204 | an arrival repeats one of the same trip if and only if a startTrip was handled while its engagement was pending |
| Gateway.QueriesHaveCallbacks | src/AutowareApp.cpp:115-138 | when every query has a callback, as in the application, no quote goes unreported |
| Gateway.StepAnnounces | src/AutowareApp.cpp:115-194 | which phase changes and callbacks enqueue which events |
| Gateway.EtaReportOfRun | src/AutowareApp.cpp:127-132 | in every run the ETA report of a successful query carries the sum of both legs' last ETA seconds and the fare of the trip leg's last ETA |
| Gateway.PrefixState | src/AutowareApp.cpp:176-194 | whatever part of a step's events is enqueued, the gateway's counts are those of some state of the run |
| Scenarios.ArrivalCanRepeat | src/gateway_bridge/src/TripController.cc:201-204 | any controller run waiting at the pickup can go on to a second arrival without a new quote, if someone calls startTrip once more |
| Scenarios.ArrivalsCanOutnumberEtas | src/gateway_bridge/src/TripController.cc:201-204 | a caller of startTrip other than the application can make arrivals outnumber ETA reports, whatever was reported before |
| Scenarios.PickupReachable | src/gateway_bridge/src/TripController.cc:116-464 | where every coordinate has a lane in reach a run gets from boot to the pickup, with one arrival |
| Scenarios.SecondArrivalFromBoot | src/gateway_bridge/src/TripController.cc:201-204 | a controller run from boot with callbacks throughout, startTrip called twice for one quote, two arrivals and one ETA report |
| Scenarios.UnreportedArrivalFromBoot | src/gateway_bridge/src/TripController.cc:640-649 | a controller run from boot without a stray startTrip, a query without callback, one arrival and no ETA report |
| Scenarios.ObserverCanBeWrong | src/gateway_bridge/src/TripController.cc:295-317 | a run from boot in which the notifications say ROUTES_READY after a cancel to IDLE |
| Scenarios.AcceptedQueryFails | src/gateway_bridge/src/TripController.cc:168-169 | queryEta returns true on a map where it has already failed |
| Agents.AppCallbacks.OnTripState | src/AutowareApp.cpp:176-194 | the events enqueued per phase and the streaming switch |
| Agents.AppCallbacks.OnQueryResult | src/AutowareApp.cpp:121-138 | a success is reported with time and fare and posts startTrip, a failure does neither |
| Agents.AppCallbacks.HandleOutput | src/AutowareApp.cpp:115-194 | each output's reports, and whether it posts startTrip |
| Agents.AgentFollows | src/AutowareApp.cpp:115-138 | under any interleaving each ETA report has posted one startTrip, handled or still queued, and the client was handed what the callbacks announced |
| Agents.AgentHistory | src/AutowareApp.cpp:115-194 | at every moment of the agent COMPLETED <= IN_PROGRESS <= ARRIVED_AT_PICKUP, and <= ETA reports with startTrip called by the application alone |
| Agents.Agent.TakeTurn | src/AutowareApp.cpp:115-138 | an event, a posted startTrip, a callback or a client thread's action does to the objects what it does to the agent's state |
| Agents.BootAndReport | src/AutowareApp.cpp:92-200 | the whole agent on any map follows its specification, hence a run, with conserved, ordered reports and no more arrivals than ETA reports |

## Left out

- ROS, TF, gRPC, Zenoh, protobuf, logging and file loading: messages and replies are events, publications and calls out are entries of the log.
- The tick's several reads of the steady clock are one reading in whole milliseconds; time spent inside a handler is not modelled.
- The MGRS projection, atan2, sin, cos and sqrt are abstract functions; coordinates are reals without rounding, and distances are compared by their squares.
- A centerline of one point: the source returns an uninitialised point, here an arbitrary constant of the map.
- lanelet2 itself: reachable sets and neighbours are given relations; that ids are distinct and nonzero and that reachable lanes and neighbours belong to the map is assumed of it.
- std::sort is stood for by an insertion sort; only that the result is a sorted permutation is used.
- Lane ids as text are a lane id or blank; the decimal digits of to_string and stoll are not spelled out, but a conversion of blank text throws as in the source.
- Commands that arrive before initialize() and are answered false.
- Handlers that are replaced while running, off-strand status reads, thread start-up and shutdown order.
- Reading and dispatching commands, the VIN test, trip ids and the payload of arrival and location events.
- Whether a trip phase ever ends: WAITING_LOCALISATION, ENGAGING and the drives have no timeout.
- The bridges for clusters, planning, perception, location and trip frames: field copies, enumerations and filters that would only add easy members.
