# Verification of the ride-pooling simulator

A Dafny model of a distributed ride-pooling simulator, and proofs about it. Three parts share one
vocabulary of requests, vehicles and time.

**Dispatch, commit and motion.** Requests arrive; a worker asks the dispatch engine for the cheapest way
to fit a request into the routes of its own vehicles (`Schedule`, `Insertion`, `Dispatch`) and commits the
plan to a store with an owner check and a version check (`Store`); the world drives the vehicles in
ticks, serves stops and stamps boarding times (`Motion`, `World`). What riders are promised follows from no
single function: `Promises` and `Riding` state what a vehicle owes its passengers and show that driving,
serving a stop and taking on a passenger keep it; `Service` puts all steps into one machine and proves the
bounds over every run; `Slack` says exactly when the limits hold without the tick in those bounds.
`Timetable` gives the engine's check and search a meaning of their own, `Journeys` says what the world makes
of a plan, and `Matching` what becomes of a request.

**Control plane.** `Lease` is the timed election of a leader, `Membership` the timed failure detector,
`Sharding` rendezvous hashing and `Rebalance` the transfer of vehicle ownership; `Coordination` is the
coordinator that runs them, `Spilling` its buffer over many rounds. `Gini` is the load metric.

**Delivery and scheduler.** `SimClock` is the event scheduler, `Actors` the actors on it and `VirtualTime`
the runtime that implements both; `Turns` spells out what an event does to the queue, and `Pacing` says when a
run comes to an end; `Bus` is the message bus; `WorkQueue`, `Workers` and `Gateways` are the queues a request
passes through; `Delivery`, `Tokens` and `NoLoss` are one machine of the way of a request
and three results about it.

## How it is built

What the simulator updates in place is a class here, with the same fields and loops: `DispatchEngine`,
`VehicleStore`, `Physics`, `Coordinator`, `LeaseRegistry`, `Worker`, `Gateway`, `SimBus`, `Runtime`.
Each method is proved against functions on values, and the results are proved about those functions, or
about machines whose steps they are. A view (`View`) gives the value an object stands for.

The code between two suspensions of an actor is one atomic step. Times and distances are real numbers.
The distance is a parameter that has to be a metric in which going a fraction f of a segment leaves
(1 - f) of it; `Geo.EuclideanIsMetric` proves this of the simulator's own distance. The router is a
parameter, too: `Motion` and `World` hold for any router, the bounds of `Service` for the straight one.

The world moves a vehicle at time t to where it will be at t plus one tick. `Service` therefore carries the
time `q` that positions stand for; the invariant bounds `q` plus the remaining travel time to every stop,
which driving leaves unchanged. The last world tick was at `q` minus one tick.

In `Service` a request is given to the engine only while it is pending. That no request is decided twice is
the subject of `Delivery` (one shard map; any duplication, loss, spilling, kills, number of coordinators)
and `Tokens` (any shard maps, loss and kills; no duplicates, one coordinator).

The tables of a dictionary are maps; where the order of a dictionary matters (the candidates of a worker)
the store also keeps the order of registration. Random draws, latencies and arrival times are parameters
or choices.

## Where code and documentation differ

- `src/drt_sim/dispatch/insertion.py:6-8` promises waiting of at most `max_wait` and a bounded detour. The
  engine checks this for its plan, but the world may serve up to one tick later. The waiting limit is kept in
  all runs if and only if plans are committed only while positions stand for now (`Slack.WaitLimitKeptIff`), and
  the detour limit if and only if besides passengers get on only at the beginning of a tick
  (`Slack.RideLimitKeptIff`); without such care the tick in both bounds is needed (`Slack.TheTickIsNeeded`).
- `src/drt_sim/sim_clock.py:119-123` says that an actor may be spawned again under its id after a kill. A
  wake-up queued before the kill then resumes the new coroutine as well (`Actors.RespawnWakesTwice`);
  `Actors.SpawnOkIff` says exactly when a spawn is safe, and `Actors.OnceIsSafe` that a first one is.
- `src/drt_sim/store.py:13-14` says the replica preserves a vehicle's state. It does as of the last write
  (`Store.ReplicaIsSnapshot`); motion is not replicated, so of a vehicle that has moved since it has owner,
  version, and a route of which the live one is a suffix.
- `src/drt_sim/coordinator.py:202-206` drops a spilled request whose cell nobody owns
  (`NoLoss.UnownedSpillVanishes`). `NoLoss.NoRequestVanishes` therefore speaks of requests in the area that all
  shard maps cover.
- `src/drt_sim/worker.py:185-191` handles a refused commit. Since planning and committing are one step, this
  branch is never taken (`Service.CommitNeverRefused`); it is in the model all the same.

## Model

| member | source | states |
|---|---|---|
| `Service.RidersAreServed` | src/drt_sim/world.py:146-166 | in every reachable state of the service (arrivals, plans, commits, changes of owner, repositioning and world ticks in any order, on straight roads): pickup minus request time is at most `maxWait` plus one tick, ride time at most direct time times detour factor plus one tick, and the status tells exactly which of assignment, pickup and dropoff have happened |
| `Service.RidersAreServedWithin` | src/drt_sim/dispatch/insertion.py:98-130 | in runs in which plans are committed only for positions that stand for a time at most `w.wait` ahead, and the pickups that a tick reaches come in its first `w.ride` seconds: waiting is at most `maxWait` plus `w.wait`, and a ride takes at most its limit plus `w.ride`; with leeway 0 both documented limits hold |
| `Service.ReachableIsWithin` | src/drt_sim/world.py:52-61 | every run is within a leeway of one tick, and every run within it is a run |
| `Service.RidersAreServedInTime` | src/drt_sim/world.py:52-61 | once the world has ticked past a rider's pickup deadline an assigned rider has been picked up; once it has ticked past the dropoff deadline the rider has been dropped off |
| `Service.RidersAreServedInTimeWithin` | src/drt_sim/world.py:52-61 | the same with the leeway in place of the tick |
| `Service.SeatsAreConserved` | src/drt_sim/dispatch/insertion.py:105-124 | the number on board is the total party size of the dropoffs whose pickup is behind the vehicle; no prefix of the remaining route exceeds the capacity or goes below 0; one pickup per request, before its dropoff; the clamp at 0 never acts; an empty route means an empty vehicle |
| `Service.ReplicaKeepsUp` | src/drt_sim/store.py:121-123 | the replica always has the live owner and version, and the live route is a suffix of the replica's, up to boarding times |
| `Service.CommitNeverRefused` | src/drt_sim/worker.py:170-184 | a plan chosen and committed in one step is always accepted by the owner and version checks |
| `Service.StepKeeps` | src/drt_sim/world.py:14-15 | every atomic step of any actor that is within the leeway keeps the invariant behind the results above |
| `Service.WorldTickKeeps` | src/drt_sim/world.py:52-55 | a whole world tick within the leeway, moving the vehicles one after another, keeps the invariant |
| `Service.ConfirmKeeps` | src/drt_sim/worker.py:182-198 | committing a plan and assigning the request, while positions stand for a time within the leeway, keeps the invariant of this vehicle and of all others |
| `Service.AlwaysInv` | src/drt_sim/world.py:111-166 | the invariant with a leeway of one tick holds in every state of every run, on any roads on which the planned time to the target runs down second by second |
| `Service.AlwaysInvWithin` | src/drt_sim/world.py:111-166 | the invariant with any leeway holds in every state of every run whose events are within it |
| `Service.AlwaysAccounted` | src/drt_sim/world.py:130-133 | in every run, with any router, each vehicle's distance is 24 km/h times its busy time |
| `Matching.RejectedIff` | src/drt_sim/worker.py:170-181 | in every reachable state: a worker can turn a pending request down if and only if none of the vehicles it owns can serve it, by whatever route, within the seats and limits of everybody |
| `Matching.AssignedToTheCheapest` | src/drt_sim/worker.py:170-184 | in every reachable state: a plan that may be committed is a way to serve the request on one of the worker's vehicles, takes as much longer as it says, and no other way, on any of its vehicles, costs less |
| `Matching.CandidatesAre` | src/drt_sim/store.py:64-66 | the candidates of a worker are exactly the vehicles it owns |
| `Matching.StopsAreAsAsked` | src/drt_sim/dispatch/insertion.py:59-68 | in every reachable state: every stop on a route belongs to a request assigned to that vehicle, lies where its rider asked to get on or off, and carries party, times and limits of the request |
| `Matching.AlwaysSettled` | src/drt_sim/worker.py:192-195 | in every run, on any roads: a vehicle with stops to make is not repositioning |
| `Journeys.TickFollowsThePlan` | src/drt_sim/world.py:111-144 | on any roads: a tick reaches exactly the waypoints (stops in order, then the place to wait at) that remaining road and planned travel times put within it, everything else comes closer by the tick, and the driving time grows by the tick or by the time there was somewhere to go |
| `Journeys.StopsAreServedAsPlanned` | src/drt_sim/world.py:111-144 | on roads that lead straight to the target: a tick serves exactly the stops that the engine plans to reach within it, and adds all its seconds of driving, or the driving time of the route |
| `Journeys.BusyAhead` | src/drt_sim/world.py:130-133 | the seconds driven in a tick are between none and all of it, and all of it if there is still somewhere to go |
| `Journeys.RepositionsAsPlanned` | src/drt_sim/world.py:63-71 | a vehicle without stops gets to the place it is to wait at in the travel time, and then has nowhere to go |
| `Journeys.TickNotes` | src/drt_sim/world.py:146-166 | every stop made in a tick gets the time of the tick, and requests without a stop made are untouched |
| `Journeys.TicksCompose` | src/drt_sim/world.py:73-93 | on any roads: two ticks of a and b seconds at the same time come to one of a + b seconds, so neither the cached piece of road nor the cutting of time into ticks changes where vehicles go |
| `Journeys.WorldTickWorks` | src/drt_sim/world.py:52-55 | a world tick adds to every vehicle's driving time the time it had somewhere to go |
| `Journeys.BusyAtMostTicked` | src/drt_sim/world.py:130-133 | in every run, on any roads, no vehicle has driven longer than the world has ticked |
| `Slack.WaitLimitKeptIff` | src/drt_sim/dispatch/insertion.py:119-122 | with any metric that is the difference on a line: no rider waits longer than `max_wait` in any run within a leeway if and only if its part for waiting is 0, that is, if plans are committed only for positions that stand for now |
| `Slack.RideLimitKeptIff` | src/drt_sim/dispatch/insertion.py:123-129 | no ride takes longer than the detour limit in any run within a leeway if and only if its part for rides is 0, that is, if besides passengers get on only at the beginning of a tick |
| `Slack.WaitsForTheLead` | src/drt_sim/world.py:150-158 | for every tick and every lead up to it there is a run, within any leeway that admits the lead, in which a rider waits exactly the lead longer than the limit |
| `Slack.RidesLonger` | src/drt_sim/world.py:150-164 | for every tick there are runs in which a ride exceeds its limit by any time less than the time the pickup comes into its tick |
| `Slack.TheTickIsNeeded` | src/drt_sim/dispatch/insertion.py:6-8 | without a leeway, for every tick: waiting can exceed the limit by the whole tick, and a ride its limit by any time less than a tick |
| `Insertion.PlacementsAreExact` | src/drt_sim/dispatch/insertion.py:74-78 | the two loops try exactly the routes that keep the other passengers' stops in order and serve the new request by its pickup and then its dropoff (if and only if) |
| `Insertion.FeasibilityIsHereditary` | src/drt_sim/dispatch/insertion.py:98-130 | with a metric distance: if the route with a fresh request inserted passes the check, the route without it passes at the same time |
| `Insertion.BrokenPromiseGetsNoRider` | src/drt_sim/dispatch/insertion.py:98-104 | a vehicle whose route fails the check is given no new passenger |
| `Insertion.AddedCostNonNegative` | src/drt_sim/dispatch/insertion.py:83-84 | the added cost of any placement is at least 0 |
| `Insertion.WinnerIsUnique` | src/drt_sim/dispatch/insertion.py:47-54 | the description of the search result (none, or the cheapest with ties to the first vehicle and the first placement) determines the result |
| `Insertion.LoadPlaced` | src/drt_sim/dispatch/insertion.py:115-124 | a new passenger takes seats between the two new stops and nowhere else |
| `Timetable.FeasibleIff` | src/drt_sim/dispatch/insertion.py:98-130 | the check says yes if and only if the timetable of the route (arrivals one drive after another, numbers on board stop by stop) keeps seats, waiting and ride limits at every stop |
| `Timetable.TakesIff` | src/drt_sim/dispatch/insertion.py:134-142 | the driving time of a route is its last arrival, leaving at time 0 |
| `Timetable.NoPlanIff` | src/drt_sim/dispatch/insertion.py:40-54 | the search finds nothing if and only if no candidate can serve the request, by any route that keeps its stops in order |
| `Timetable.PlanIsCheapest` | src/drt_sim/dispatch/insertion.py:47-54 | the plan found is a way to serve the request, costs what it says, and is the cheapest of all; no candidate listed earlier has one as cheap |
| `Timetable.PlanIsFirst` | src/drt_sim/dispatch/insertion.py:74-93 | on its vehicle the plan is the first of the cheapest in the order of the loops, and its two new stops are where it says |
| `Schedule.LastPickup` | src/drt_sim/dispatch/insertion.py:119-126 | the boarding stop of a request is the last pickup before its dropoff, and none only if there is no such pickup |
| `Schedule.OnTimeWithout` | src/drt_sim/dispatch/insertion.py:119-129 | leaving out a stop that no remaining dropoff depends on keeps the waiting and detour limits at all other stops |
| `Dispatch.DispatchEngine.Feasible` | src/drt_sim/dispatch/insertion.py:98-130 | the scan answers yes exactly if every passenger on the route, old or new, keeps seats, waiting and detour limits; it changes nothing but arrival estimates |
| `Dispatch.DispatchEngine.RouteTravelTime` | src/drt_sim/dispatch/insertion.py:134-142 | the loop computes the driving time of the route |
| `Dispatch.DispatchEngine.TryPlacement` | src/drt_sim/dispatch/insertion.py:76-93 | one placement is accepted exactly if it fits, with its added cost, route and the vehicle's version |
| `Dispatch.DispatchEngine.BestInsertionForVehicle` | src/drt_sim/dispatch/insertion.py:56-94 | no plan if and only if no placement fits; else the first of the cheapest that fit, made of the vehicle's own stop objects and two new ones |
| `Dispatch.DispatchEngine.Dispatch` | src/drt_sim/dispatch/insertion.py:40-54 | no plan if and only if no placement fits on any candidate; else the cheapest, ties going to the first vehicle |
| `Motion.ArcLengthPosition` | src/drt_sim/world.py:95-109 | for any router, the point `_interp` gives is on the one piece of road whose arc lengths contain the distance driven, at exactly that distance |
| `Motion.InterpIsAtShare` | src/drt_sim/world.py:95-109 | the point at share f of the road is on a piece of it, at exactly f times the arc length of the road |
| `Motion.PositionIsAtShare` | src/drt_sim/world.py:128-133 | a vehicle that has driven some share of the time of its piece of road has driven that share of the road |
| `Motion.StraightIsHoming` | src/drt_sim/world.py:128-133 | with the straight router the planned time to the target falls by exactly the seconds driven |
| `Motion.StraightInterp` | src/drt_sim/routing.py:29-33 | with the straight router interpolation along the road is the straight line |
| `Motion.AdvanceAccounts` | src/drt_sim/world.py:130-132 | a tick keeps distance equal to 24 km/h times busy time, with any router |
| `Motion.BisectRight` | src/drt_sim/world.py:103 | the number of leading arc lengths that are at most the argument |
| `World.Physics.CurrentSegment` | src/drt_sim/world.py:73-93 | the cached piece of road if it leads to the target, else a newly measured one |
| `World.Physics.MeasureRoad` | src/drt_sim/world.py:79-91 | the loop computes the arc length at every point of the polyline |
| `World.Physics.StampFirst` | src/drt_sim/world.py:155-158 | writes the boarding time on the first dropoff of the request and on nothing else |
| `World.Physics.ProcessStop` | src/drt_sim/world.py:146-166 | serving a stop changes vehicle, request and stops exactly as specified, including unknown requests |
| `World.Physics.Drive` | src/drt_sim/world.py:128-133 | distance, busy time, position and elapsed time after driving for some seconds |
| `World.Physics.Arrive` | src/drt_sim/world.py:134-142 | position, stop or reposition, route and cache after an arrival |
| `World.Physics.Advance` | src/drt_sim/world.py:111-144 | the loop ends (it has at most one arrival per stop and one more) and has the specified effect; the route objects left are a suffix of those before |
| `World.Physics.RunTick` | src/drt_sim/world.py:52-55 | one round of the world loop changes the whole fleet as specified, vehicle by vehicle |
| `Promises.FeasibleKept` | src/drt_sim/dispatch/insertion.py:98-130 | a route accepted at a time is kept, but for the leeway, when the position stands for a time later by at most the leeway for waiting |
| `Promises.DriveKept` | src/drt_sim/world.py:128-133 | driving towards the first stop changes no planned arrival |
| `Promises.RestKept` | src/drt_sim/world.py:146-158 | serving the first stop and stamping boarding times keeps what is owed at the other stops, if a passenger who gets on is reached within the leeway for rides |
| `Promises.PlacedPaired` | src/drt_sim/dispatch/insertion.py:74-78 | inserting a new passenger keeps one pickup and dropoff per request in order, and boarding times where the pickup is past |
| `Promises.RidersAreNetOut` | src/drt_sim/world.py:150-163 | dropoffs less pickups on a well-paired route is the number of people whose pickup is past |
| `Promises.LoadNonNegative` | src/drt_sim/dispatch/insertion.py:105-124 | the load is never negative along a well-paired route |
| `Promises.StampOnly` | src/drt_sim/world.py:155-158 | stamping changes the boarding time of the request's dropoff and nothing else |
| `Riding.ClampNeverFires` | src/drt_sim/world.py:162 | at a dropoff the number on board less the party is at least 0 |
| `Riding.ServedInTime` | src/drt_sim/world.py:150-164 | serving a stop no later than planned keeps the rider's promise |
| `Riding.AdvanceKeeps` | src/drt_sim/world.py:111-144 | one tick whose pickups come within the leeway keeps every promise of the vehicle and moves the time its position stands for to the end of the tick; other vehicles' riders, owner, version and capacity are untouched and the route only shortens |
| `Geo.EuclideanIsMetric` | src/drt_sim/geo.py:34-36 | the non-negative root of dx^2 + dy^2 is a metric in which a fraction f of a segment leaves (1 - f) of it |
| `Geo.EuclideanOnLine` | src/drt_sim/geo.py:34-36 | on the x axis that distance is the difference |
| `Store.PlanCommitsIff` | src/drt_sim/store.py:70-93 | over any interleaving of commits, changes of owner and motion: a plan read at one point commits later if and only if its node owned the vehicle then and nobody has written it since; ownership that left and came back gives a version conflict |
| `Store.CommitsIncrease` | src/drt_sim/store.py:85-91 | successful commits on one vehicle have strictly increasing expected versions, by the number of writes in between |
| `Store.VersionCountsWrites` | src/drt_sim/store.py:90-108 | the version counts successful commits and changes of owner |
| `Store.RefusalsAreCounted` | src/drt_sim/store.py:80-88 | over any run the two counters count the commits refused because the vehicle belongs to another node, and because its version has moved on |
| `Store.ReplicaAlwaysAgrees` | src/drt_sim/store.py:92-108 | the replica agrees with the live vehicle after any run, though motion is not replicated |
| `Store.ReplicaIsSnapshot` | src/drt_sim/store.py:90-108 | the replica is the vehicle as it was right after it was last written, however it has moved since |
| `Store.RegisteredAgrees` | src/drt_sim/store.py:54-56 | registering a vehicle keeps the replica in agreement |
| `Store.VehicleStore.constructor` | src/drt_sim/store.py:44-50 | an empty store |
| `Store.VehicleStore.Register` | src/drt_sim/store.py:54-56 | a vehicle is filed under its id, listed once, and replicated |
| `Store.VehicleStore.VehiclesOwnedBy` | src/drt_sim/store.py:64-66 | a vehicle is listed if and only if the node owns it, once, in the order of registration |
| `Store.VehicleStore.CommitAssignment` | src/drt_sim/store.py:70-93 | answer, new state and counters in all four cases; one vehicle is changed and no other |
| `Store.VehicleStore.ReassignOwner` | src/drt_sim/store.py:97-108 | owner, version and replica of one vehicle; nothing for an unknown id |
| `Store.VehicleStore.Replicate` | src/drt_sim/store.py:121-123 | the replica gets a value snapshot |
| `Sharding.OwnerOfSorted` | src/drt_sim/sharding.py:30-34 | the first greatest weight among sorted nodes is the rendezvous owner: greatest weight, first name among ties |
| `Sharding.MinimalDisruption` | src/drt_sim/sharding.py:74-80 | for any two node sets a cell changes owner only if its old owner left or its new owner joined, ties included |
| `Sharding.ShardMapIsRendezvous` | src/drt_sim/sharding.py:74-80 | a shard map covers exactly the given cells, unless there are no nodes, gives each to its rendezvous owner, and lists the nodes in order |
| `Sharding.OrderIsIrrelevant` | src/drt_sim/sharding.py:76 | the same nodes in any order give the same map |
| `Sharding.Diff` | src/drt_sim/sharding.py:62-71 | exactly the cells whose owner differs, with old and new owner |
| `Sharding.LoadPerNode` | src/drt_sim/sharding.py:55-60 | the number of cells of every listed node and every owner |
| `Gini.GiniMeaning` | src/drt_sim/sharding.py:83-93 | for non-negative values with a positive sum the rank formula is the sum of all pairwise differences over twice the number of values times their sum; it lies in [0, (n - 1) / n] and is 0 if and only if all values are equal |
| `Gini.GiniOfNothing` | src/drt_sim/sharding.py:87-91 | without values, or with sum 0, the coefficient is 0 |
| `Gini.SortKeeps` | src/drt_sim/sharding.py:85 | sorting changes neither the sum nor the pairwise differences |
| `Rebalance.FailureRebalance` | src/drt_sim/coordinator.py:171-187 | after a failure with survivors exactly the failed workers' vehicles are handed over, each with one new version, and owners again agree with rendezvous hashing over the workers alive |
| `Rebalance.RebalanceMovesLittle` | src/drt_sim/coordinator.py:181-186 | between any two worker sets a vehicle changes owner and version only if its owner left or its new owner joined |
| `Rebalance.TransferHands` | src/drt_sim/coordinator.py:181-186 | a rebalance hands over each vehicle as its home cell says and touches nothing else |
| `Coordination.Coordinator.constructor` | src/drt_sim/coordinator.py:70-109 | initial workers alive and seen at time 0 with empty queues, the map that belongs to them, and nothing published yet |
| `Coordination.Coordinator.Rebalance` | src/drt_sim/coordinator.py:171-194 | new map, owners and versions, announcements of exactly the cells that change hands, and the published view last; nothing without workers |
| `Coordination.Coordinator.TransferOwners` | src/drt_sim/coordinator.py:181-186 | the loop over all vehicles has the specified effect on the store |
| `Coordination.Coordinator.Announce` | src/drt_sim/coordinator.py:176-179 | one message for every cell that changes hands and for no other, with old and new owner, version, time and reason |
| `Coordination.Coordinator.Ingest` | src/drt_sim/coordinator.py:137-154 | heartbeats update health and may bring a worker in; a rebalance with its messages follows exactly if a leader hears a worker join; spilled requests are buffered in order |
| `Coordination.Coordinator.DetectFailures` | src/drt_sim/coordinator.py:158-169 | exactly the workers silent for longer than the timeout go down, and exactly then there is a rebalance, with its messages |
| `Coordination.Coordinator.FindOverdue` | src/drt_sim/coordinator.py:159-162 | the loop finds exactly the overdue workers |
| `Coordination.Coordinator.ReinjectSpill` | src/drt_sim/coordinator.py:198-206 | the first requests of the buffer, as many as the limit allows or there are, leave it for the owners of their cells, in order |
| `Coordination.Coordinator.MaybePublish` | src/drt_sim/coordinator.py:130-133 | the view is published exactly when it is due or the leader is new, and the next time is one interval later |
| `Spilling.SpilledGoesOut` | src/drt_sim/coordinator.py:198-206 | with rounds that are led or not, and requests spilled in between: a request at place p of the buffer goes to the owner of its cell, if there is one, in the round before which p / limit others have been led |
| `Coordination.Coordinator.Wake` | src/drt_sim/coordinator.py:111-133 | one round, whether the coordinator led before or leads after it: the state reached by handling the inbox under the old flag, the lease, the state reached by the work of a leader, and all messages in order (joins, failures, reinjected requests, and the view when it is due) |
| `Coordination.RebalancesAreByTheHolder` | src/drt_sim/coordinator.py:111-187 | over all runs of the election: the part of a round before the lease is tried changes map or vehicles or sends anything only if the coordinator holds an unexpired lease then, and the part after it only if it holds one after it |
| `Coordination.FollowerOnlyListens` | src/drt_sim/coordinator.py:137-154 | handling an inbox without the flag changes nothing but health |
| `Coordination.WakeKeepsMap` | src/drt_sim/coordinator.py:141-151 | a leader that stays leader has, after every round, the map of the workers it takes to be alive, unless none is left |
| `Lease.LeaseRegistry.TryAcquire` | src/drt_sim/coordinator.py:51-61 | granted exactly to the holder, or to anybody when nobody holds an unexpired lease; holder, expiry and epoch after it |
| `Lease.LeaderIsCurrent` | src/drt_sim/coordinator.py:116-120 | if the tick is shorter than the lease, a live coordinator that thinks it leads holds an unexpired lease now and until it next wakes up, so also while it handles its inbox before renewing |
| `Lease.OneLeader` | src/drt_sim/coordinator.py:119-120 | at most one live coordinator thinks it leads |
| `Lease.HolderChangesAfterKill` | src/drt_sim/coordinator.py:51-61 | the lease changes hands only once its holder has been killed |
| `Lease.Failover` | src/drt_sim/coordinator.py:111-133 | once lease plus tick has passed since a coordinator was killed, while any other lives, somebody else holds the lease: a live leader, unexpired, or one killed in turn no longer ago than that |
| `Lease.FailoversAreKills` | src/drt_sim/coordinator.py:53-54 | the epoch is at most one more than the number of coordinators killed |
| `Lease.EpochCountsHolders` | src/drt_sim/coordinator.py:53-54 | over any run the epoch is the number of times the lease has changed hands |
| `Membership.LiveWorkersStayUp` | src/drt_sim/coordinator.py:158-169 | if heartbeat interval, worker tick and greatest latency fit into the timeout, no live worker is ever declared down, on a bus that delays, reorders and duplicates |
| `Membership.DeadWorkersGoDown` | src/drt_sim/coordinator.py:158-169 | if the coordinator led at its last tick, whenever it was elected: a worker dead at k is out of the cluster once latency, a late duplicate, the timeout and two ticks have passed since k, and it is down if it was ever in the cluster before |
| `Membership.LeaderHearsAll` | src/drt_sim/coordinator.py:158-169 | after a leading tick nobody is in the cluster who will be overdue before the tick after the next |
| `Membership.HearAllIs` | src/drt_sim/coordinator.py:138-151 | what a batch of heartbeats does to the coordinator's view |
| `Membership.OwnBeatVouches` | src/drt_sim/worker.py:119-123 | a heartbeat sent in time will have arrived before its worker is overdue |
| `SimClock.IncrementalIsBatch` | src/drt_sim/sim_clock.py:181-192 | running to an earlier time and then on ends in the same state as running at once (if and only if), whether or not the increments fall on events |
| `SimClock.Split` | src/drt_sim/sim_clock.py:181-192 | the events of a long run are those of its increments, one after the other |
| `SimClock.RunIsUnique` | src/drt_sim/sim_clock.py:181-192 | a run has one number of events and one end |
| `SimClock.RunOrderly` | src/drt_sim/sim_clock.py:98-103 | the clock never goes back, no queued event lies before it, and the queue stays in order |
| `SimClock.TraceOrdered` | src/drt_sim/sim_clock.py:187-190 | events run in order of time, and of scheduling for equal times |
| `SimClock.RunTerminates` | src/drt_sim/sim_clock.py:181-192 | a run ends if what is left to do within spans of some positive length shrinks with every event, for any measure of it |
| `SimClock.DelaysShrink` | src/drt_sim/sim_clock.py:181-192 | it does if every event schedules only at least that much later |
| `Pacing.PacedRunsEnd` | src/drt_sim/sim_clock.py:181-192 | for every actor program whose sleeps last at least some positive time and whose messages, kills and spawns are scheduled at least that much later: every run from an orderly state ends, however many messages wait in inboxes |
| `Pacing.EffectCost` | src/drt_sim/sim_clock.py:134-177 | an event leads to less work at the same time than it was worth: a wake-up causes another one only by using up a message |
| `Turns.TurnQueues` | src/drt_sim/sim_clock.py:149-177 | resuming a live actor takes its event off the queue and adds exactly one event for every call of its turn, at the time asked for or now, numbered in order, and then its wake-up (at the end of a sleep, or now with the first message left) |
| `Turns.TurnUpdates` | src/drt_sim/sim_clock.py:149-177 | the turn leaves the actor its new state unless it is over, takes from its inbox what it took and what it is woken with, and leaves it waiting exactly if it asks for a message and there is none |
| `Turns.AskedHappens` | src/drt_sim/sim_clock.py:98-103 | whatever an actor asks for in a turn happens at the time asked for in every run that goes on so long, and is still queued if the run ends before |
| `Turns.QueuedHappens` | src/drt_sim/sim_clock.py:181-192 | a queued event happens if and only if it is due by the end of the run, and is still queued if and only if it is not |
| `Turns.DeliveryIs` | src/drt_sim/sim_clock.py:134-145 | a message goes to the end of the inbox of a live actor, which is woken with the first one if it waits; a dead actor gets nothing |
| `Turns.KillIs` | src/drt_sim/sim_clock.py:119-127 | a killed actor is out of every table, and its inbox is empty |
| `Turns.SpawnIs` | src/drt_sim/sim_clock.py:107-117 | a spawned actor is alive in the state it is given, and is woken at once |
| `Turns.DeadStayDead` | src/drt_sim/sim_clock.py:119-127 | a dead actor gets no message and takes no turn until it is spawned again, whatever is queued for it |
| `Actors.ActorsAlwaysOk` | src/drt_sim/sim_clock.py:134-177 | if no id is spawned twice: every live unfinished actor has exactly one queued wake-up, or waits with an empty inbox; what it got, what is being handed to it and its inbox make up what was delivered, in order; and ids never spawned are in no table and have no wake-up |
| `Actors.OnceIsSafe` | src/drt_sim/sim_clock.py:107-117 | spawning an id for the first time is safe |
| `Actors.SpawnOkIff` | src/drt_sim/sim_clock.py:107-117 | spawning keeps this if and only if no wake-up of the id is queued and it is not waiting |
| `Actors.RespawnWakesTwice` | src/drt_sim/sim_clock.py:119-127 | an actor killed while it sleeps and spawned again has two wake-ups queued, so respawning after a kill is not safe in general |
| `Actors.DeliverOk` | src/drt_sim/sim_clock.py:134-145 | a delivery neither loses a message nor a wake-up, nor wakes twice |
| `Actors.TurnOk` | src/drt_sim/sim_clock.py:149-175 | a turn ends in exactly one wake-up, in waiting, or in the end of the actor |
| `VirtualTime.Runtime.ScheduleAt` | src/drt_sim/sim_clock.py:98-103 | an event is queued in order, not before now |
| `VirtualTime.Runtime.Spawn` | src/drt_sim/sim_clock.py:107-117 | the tables and the first wake-up of an actor |
| `VirtualTime.Runtime.Kill` | src/drt_sim/sim_clock.py:119-127 | the actor is gone from all tables and its inbox is empty |
| `VirtualTime.Runtime.Deliver` | src/drt_sim/sim_clock.py:134-145 | a message to a dead actor is dropped; else it is queued and a waiting actor is woken with the first message |
| `VirtualTime.Runtime.StepActor` | src/drt_sim/sim_clock.py:149-177 | resuming a dead or finished actor does nothing; else the turn and what it waits for take effect |
| `VirtualTime.Runtime.RunUntil` | src/drt_sim/sim_clock.py:181-192 | the loop runs exactly the events due and sets the clock |
| `WorkQueue.RoundOk` | src/drt_sim/worker.py:108-114 | a round keeps `seen` the disjoint union of the pending requests, none twice, and the decided ones, and leaves no more than the high-water mark pending |
| `WorkQueue.RoundIs` | src/drt_sim/worker.py:154-244 | a round takes its work from the front and sheds from the back, in order |
| `WorkQueue.SurvivorIsWorkedOff` | src/drt_sim/worker.py:233-244 | a request that survived a spill is never spilled later and is decided or rerouted within as many rounds as it takes to work off the high-water mark |
| `WorkQueue.ReceiveOk` | src/drt_sim/worker.py:144-150 | a repeated delivery changes nothing, a new one is queued once |
| `WorkQueue.ReroutedIff` | src/drt_sim/worker.py:160-165 | a request goes to another node exactly if the map known gives its cell to that node |
| `Workers.Worker.Plan` | src/drt_sim/worker.py:170-172 | the plan is the best over the worker's own vehicles, would be accepted by the store, and changes nothing |
| `Workers.Worker.Book` | src/drt_sim/worker.py:182-195 | the store after a commit, with repositioning ended |
| `Workers.Worker.TryDispatch` | src/drt_sim/worker.py:170-209 | the request is assigned by the best plan, which the store has accepted, with vehicle and time, or rejected because there is none; one counter goes up; the queue is untouched |
| `Workers.Worker.Ingest` | src/drt_sim/worker.py:127-150 | a view replaces the last one; a request addressed to the worker is queued unless seen |
| `Workers.Worker.ProcessOne` | src/drt_sim/worker.py:157-165 | the first request is sent to the node that the worker's view gives its cell to, if that is another one, and nothing else happens; else it is decided by the best plan, the store changes accordingly, and an assignment is confirmed |
| `Workers.Worker.ProcessBatch` | src/drt_sim/worker.py:154-168 | up to the throughput, first come, first served; the store and the messages are those of working off the requests one after another |
| `Workers.Worker.MaybeSpill` | src/drt_sim/worker.py:233-244 | exactly the requests beyond the high-water mark are sent to the coordinators, last first |
| `Workers.Worker.MaybeBeat` | src/drt_sim/worker.py:119-123 | a heartbeat when due, with the state of the queue |
| `Workers.Worker.Round` | src/drt_sim/worker.py:107-123 | a round of the loop: the queue, its invariant, the store, and all messages in order (reroutes and confirmations, spilled requests, the heartbeat when due) |
| `Workers.AcceptedIs` | src/drt_sim/worker.py:144-150 | what gets into the queue is what deduplication lets in |
| `Gateways.Gateway.Route` | src/drt_sim/gateway.py:87-96 | to the owner of the pickup cell, or into the buffer if none is known |
| `Gateways.Gateway.FlushBuffer` | src/drt_sim/gateway.py:98-104 | exactly the requests without an owner stay buffered, in order |
| `Gateways.Gateway.Drain` | src/drt_sim/gateway.py:74-78 | the last view counts; buffer and messages are those of flushing with one view after another; after a view only requests that the last one gives no owner are left |
| `Protocol.BufferedIsKept` | src/drt_sim/gateway.py:98-104 | a buffered request stays in the buffer or goes to the owner of its cell by one of the views |
| `Protocol.OwnedAreSent` | src/drt_sim/gateway.py:74-104 | whatever is still buffered after a view has no owner by the last one |
| `Protocol.NothingForgotten` | src/drt_sim/gateway.py:98-104 | every request goes to the owner of its cell or is among those without one |
| `Protocol.SentOrKept` | src/drt_sim/gateway.py:98-104 | each request is sent or kept, once, and nothing else is sent or kept |
| `Delivery.DecidedOnceWithFixedMap` | src/drt_sim/worker.py:144-244 | with one shard map no request is decided twice, under any loss, duplication, reordering, spilling, number of coordinators and kills |
| `Delivery.StepFixed` | src/drt_sim/worker.py:144-244 | every event keeps the invariant behind it |
| `Tokens.DecidedOnceWithoutDuplicates` | src/drt_sim/worker.py:144-244 | without duplicates and with one coordinator no request is decided twice, under any shard maps, losses and kills, and a decided request is nowhere else |
| `Tokens.StepPlaced` | src/drt_sim/coordinator.py:152-206 | every event moves a request from one place to at most one place |
| `NoLoss.NoRequestVanishes` | src/drt_sim/gateway.py:87-104 | without losses and kills, with joins, duplicates, reroutes and spills, every request emitted in the area of the shard maps is buffered, on its way, queued, held by the leader, or decided |
| `NoLoss.StepPresent` | src/drt_sim/coordinator.py:198-206 | every event keeps every such request somewhere |
| `NoLoss.UnownedSpillVanishes` | src/drt_sim/coordinator.py:198-206 | a run without losses in which a request spilled to a coordinator whose map does not own its cell is nowhere and undecided |
| `Bus.SubscribersAreServed` | src/drt_sim/bus/sim_bus.py:70-111 | each subscriber gets the number of copies the protocols assume, within the latency bounds, a duplicate one base latency later; nobody else gets any |
| `Bus.CopiesAreDrawn` | src/drt_sim/bus/sim_bus.py:80-97 | a subscriber that is not cut off gets the message exactly if its draw is not below the loss probability, twice exactly if the next is below the probability of duplicates, and after the share drawn of the jitter |
| `Bus.SimBus.Publish` | src/drt_sim/bus/sim_bus.py:70-78 | what is scheduled for whom, and every counter: how many subscribers were cut off, lost, or sent two copies |
| `Bus.SimBus.DeliverTo` | src/drt_sim/bus/sim_bus.py:80-97 | what is scheduled for one subscriber at what time, and which counter goes up, in all four cases |
| `Bus.SimBus.ComeDue` | src/drt_sim/bus/sim_bus.py:102-109 | a delivery that comes due while its receiver is cut off is dropped and counted |
| `Bus.SimBus.Subscribe` | src/drt_sim/bus/sim_bus.py:62-64 | nobody is subscribed twice |

## Left out

- Numerical tolerances: comparisons with 1e-9 and 1e-12 are comparisons with 0, and floating-point rounding is not modelled.
- Planned arrival times (`eta`): the engine writes them even for placements it turns down; the model has the field and the writes, and no result depends on it.
- Service bounds with a road router: between stops the position is then off the straight line that the planner assumes. Motion, arc length and accounting hold for any router.
- Speeds other than the default of 24 km/h, and the error for a speed that is not positive.
- NearestIdleEngine: it checks no capacity, so the seat results are for the insertion engine.
- Idle repositioning: which vehicle is sent where is a choice in `Service`; demand signals and their decay are not modelled.
- Handoff messages and tracing: they inform and change nothing.
- recover_from_replica: no actor calls it.
- Requests outside `Service`'s guard: nothing is claimed about a request dispatched a second time after its decision.
- SHA-256: the hash weight is any function of a cell and a node, so ties are possible.
- `cells_of`, which lists the cells of a node in order; the order of nodes in a published view: sets are used.
- Map projection, cell geometry, virtual stops, demand generation, live metrics, snapshots, configuration and command line.
- The Redis and asyncio backends: wall-clock time and external processes.
- Versions of shard maps across a change of leader: every coordinator keeps its own map, so they need not increase.
- VirtualTime.Runtime.RunUntil: asks for a run that ends, since the loop of the source need not; `Pacing.PacedRunsEnd` gives one, with its number of events, for actors that let time pass.
- VirtualTime.Runtime.StepActor: an actor's turn is a function of its state and inbox; exceptions raised by an actor are not modelled.
- Membership.DeadWorkersGoDown: one coordinator with its own view of the workers, leading at the ticks of its choice; who leads is decided in `Lease`.
- Membership.LiveWorkersStayUp: whether the coordinator leads at a tick is a free choice; losses and partitions are excluded, since the code makes no promise under them.
- World.Physics.RunTick: telemetry published after the tick is left out; the stop objects of different vehicles are taken to be distinct, which commits keep.
- Workers.Worker.Round: repositioning of idle vehicles is not part of it.
- Gateways.Gateway.Route: creating a request and the registry of requests belong to `Service` (event `Emit`).
- Store.VehicleStore.Register: registering an id again resets its version; the results over runs are for vehicles registered once.
