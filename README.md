# MATSim core pieces, modelled and proved in Dafny

This project models six pieces of the MATSim transport simulation and proves
what they promise:

- **Fleet snapshot of the demand-responsive transport (DRT) optimizer**
  (`VehicleData`, file `vehicle_data.dfy`). A stop derives its two deadlines
  from the requests bound to it:
  - the latest arrival time is the earliest dropoff deadline, never earlier
    than the stop task's begin time;
  - the latest departure time is the earliest pickup deadline, never earlier
    than the stop task's end time;
  - with no request of that kind, the deadline is `Double.MAX_VALUE`.

  The snapshot holds one entry per vehicle for which the entry factory
  returns one, keyed by vehicle id. `updateEntry` rebuilds one entry at the
  snapshot's own time.
- **Best insertion into one vehicle** (`SingleVehicleInsertionProblem`, file
  `insertion_problem.dfy`). Candidates are scored once each, in order. The
  first strictly cheapest candidate below the infeasibility sentinel wins. The
  result is empty exactly when no candidate costs less than the sentinel.
- **Per-link travel-time bins** (`TravelTimeDataArray`, file
  `travel_time_data.dfy`). Each time slot keeps a sample count and a running
  mean. A slot with no data falls back to the free-speed travel time and caches
  it in the slot.
- **Freight services** (`CarrierService` and its `Builder`, file
  `carrier_service.dfy`). The builder has documented defaults. Equality and the
  hash code depend on the id only. The hash code is computed in 32-bit `int`
  arithmetic (`java_ints.dfy`).
- **Clustering of a carrier's services** (`ClusterServices`, file
  `cluster_services.dfy`). Services are grouped by link and then by start time
  window. Within a group they are merged greedily, in order, into new services
  whose summed capacity demand stays within a cap.
  - The greedy clustering is a pure function, `Clusters`.
  - The carrier's map updates are a sequence of `put`/`remove` operations.
  - The source's loops are proved to perform exactly those operations.
  - The running `capDemand` is summed in Java's `int` arithmetic, as in the
    source, so it can wrap around. `WrappedSumJoinsCluster` shows a service
    joining a cluster because the sum wrapped to a negative value.
  - Lemmas show that clustering conserves the services, their exact total
    demand and their duration. Each created service's demand is its cluster's
    exact total wrapped to 32 bits. A cluster's running sum exceeds the cap only
    when it holds a single service.
  - The carrier ends up holding only the new cluster services.

  When the first service of a group alone exceeds the cap, the source closes
  the still empty first cluster and adds a service with demand 0 and duration
  0. The model keeps this behaviour, and `ClustersShape` states exactly when it
  happens.
- **Vehicle and passenger bookkeeping during an evacuation simulation**
  (`VehiclesTracker`, file `vehicles_tracker.dfy`). Each event handler is a
  transition of a `TrackerState` value. The tracker class updates its fields to
  exactly that transition. Lemmas relate sequences of events, for example:
  - entering and then leaving gives the seat back, even across the counter's
    wrap-around;
  - arrival keeps the driver and vehicle maps mutual inverses and releases every
    passenger.

Java's `int` wrap-around is written out (`Int32`, `ToInt32` and `AddInt32`
in `java_ints.dfy`) for the hash code, the clustering's running demand sum
and the tracker's capacity counters. `null` is
`Option.None`. Doubles are modelled as reals. A `NullPointerException` path of
the source is a precondition of the model. Hash-map iteration order is an
explicit parameter (`serviceOrder`, the order in which the carrier's map lists its services).

The clustering code calls `getLocationLinkId` on a service. The
`CarrierService` class in this repository only defines `getLinkId`, so the
model groups by the service's link id (`locationId`).

## Model

| member | source | states |
|---|---|---|
| VehicleData.MinTime | contribs/drt/src/main/java/org/matsim/contrib/drt/optimizer/VehicleData.java:108 | `min()` of the deadlines is empty exactly for no deadlines, and otherwise is one of them and below all of them |
| VehicleData.MaxTimeConstraint | contribs/drt/src/main/java/org/matsim/contrib/drt/optimizer/VehicleData.java:104-109 | the constraint is never below the scheduled time, and never below some deadline when there are deadlines. It is at most each deadline unless it equals the scheduled time, and `max(Double.MAX_VALUE, scheduled time)` for no deadlines. Together these fix it at `max(min deadline, scheduled time)` |
| VehicleData.LatestArrivalTimes | contribs/drt/src/main/java/org/matsim/contrib/drt/optimizer/VehicleData.java:94 | the dropoff requests' latest arrival times, one per request, in order |
| VehicleData.LatestStartTimes | contribs/drt/src/main/java/org/matsim/contrib/drt/optimizer/VehicleData.java:100 | the pickup requests' latest start times, one per request, in order |
| VehicleData.NewStop | contribs/drt/src/main/java/org/matsim/contrib/drt/optimizer/VehicleData.java:79-102 | `occupancyChange` is pickups minus dropoffs. Each deadline is at least the stop task's begin (end) time and at least some bound request's deadline. It is at most every bound request's deadline unless it equals that task time, which fixes it at `max(min deadline, task time)`. With no such request it is `max(Double.MAX_VALUE, task time)` |
| VehicleData.MoreDropoffsNeverRelaxArrival | contribs/drt/src/main/java/org/matsim/contrib/drt/optimizer/VehicleData.java:92-96 | binding one more dropoff request never makes the stop's latest arrival time later |
| VehicleData.MorePickupsNeverRelaxDeparture | contribs/drt/src/main/java/org/matsim/contrib/drt/optimizer/VehicleData.java:98-102 | binding one more pickup request never makes the stop's latest departure time later |
| VehicleData.CreatedEntries | contribs/drt/src/main/java/org/matsim/contrib/drt/optimizer/VehicleData.java:129-131 | an entry is kept exactly when the factory returned it for some vehicle at the snapshot time |
| VehicleData.ToMap | contribs/drt/src/main/java/org/matsim/contrib/drt/optimizer/VehicleData.java:132 | with no repeated vehicle id, every entry is stored under its vehicle's id, every key holds one of the entries, and there are as many keys as entries |
| VehicleData.SnapshotHoldsOfferableVehicles | contribs/drt/src/main/java/org/matsim/contrib/drt/optimizer/VehicleData.java:129-132 | the snapshot holds exactly the vehicles the factory returned an entry for, each under its own vehicle id |
| VehicleData.Updated | contribs/drt/src/main/java/org/matsim/contrib/drt/optimizer/VehicleData.java:137-141 | a non-null entry is put under the vehicle's id. A null entry removes the key. Every other key and entry is unchanged |
| VehicleData.UpdateKeepsKeying | contribs/drt/src/main/java/org/matsim/contrib/drt/optimizer/VehicleData.java:135-142 | updating with an entry of that same vehicle keeps every entry under its own vehicle id |
| VehicleData.EntryCountMatchesKeys | contribs/drt/src/main/java/org/matsim/contrib/drt/optimizer/VehicleData.java:144-150 | in a snapshot keyed by vehicle, there are as many distinct entries as keys |
| VehicleData.VehicleData.constructor | contribs/drt/src/main/java/org/matsim/contrib/drt/optimizer/VehicleData.java:125-133 | given a factory that makes entries for the vehicle it is asked about, establishes the class invariant, keeps the time and the factory, and the entries are the `toMap` of the created entries, keyed by vehicle |
| VehicleData.VehicleData.UpdateEntry | contribs/drt/src/main/java/org/matsim/contrib/drt/optimizer/VehicleData.java:135-142 | keeps the class invariant; the entries become `Updated` with the factory's result at the snapshot's own `currentTime` |
| VehicleData.VehicleData.GetEntries | contribs/drt/src/main/java/org/matsim/contrib/drt/optimizer/VehicleData.java:148-150 | exactly the stored entries, each retrievable under its own vehicle id |
| VehicleData.VehicleData.GetSize | contribs/drt/src/main/java/org/matsim/contrib/drt/optimizer/VehicleData.java:144-146 | the size is the number of entries returned by `getEntries` |
| SingleVehicleInsertion.SingleVehicleInsertionProblem.constructor | contribs/drt/src/main/java/org/matsim/contrib/drt/optimizer/insertion/SingleVehicleInsertionProblem.java:50-54 | keeps the detour data provider and the cost calculator |
| SingleVehicleInsertion.SingleVehicleInsertionProblem.Materialised | contribs/drt/src/main/java/org/matsim/contrib/drt/optimizer/insertion/SingleVehicleInsertionProblem.java:58-63 | one detour-data insertion per candidate, in candidate order |
| SingleVehicleInsertion.SingleVehicleInsertionProblem.Costs | contribs/drt/src/main/java/org/matsim/contrib/drt/optimizer/insertion/SingleVehicleInsertionProblem.java:64 | one cost per candidate, in order, each the calculator's cost of that candidate's insertion |
| SingleVehicleInsertion.SingleVehicleInsertionProblem.FindBestInsertion | contribs/drt/src/main/java/org/matsim/contrib/drt/optimizer/insertion/SingleVehicleInsertionProblem.java:56-74 | every candidate is materialised once, in order. The result is empty iff no cost is below the sentinel. Otherwise it is the first minimum-cost candidate with its cost, carrying the input vehicle entry unchanged |
| SingleVehicleInsertion.FirstMinimumIsUnique | contribs/drt/src/main/java/org/matsim/contrib/drt/optimizer/insertion/SingleVehicleInsertionProblem.java:65 | the strict `<` makes the chosen position unique: two first minima are the same position |
| TrafficMonitoring.AddAll | matsim/src/main/java/org/matsim/core/trafficmonitoring/TravelTimeDataArray.java:70-79 | adding samples one by one increases the count by the number of samples |
| TrafficMonitoring.AddAllKeepsSum | matsim/src/main/java/org/matsim/core/trafficmonitoring/TravelTimeDataArray.java:70-79 | if mean times count is the sum so far, it stays the running sum after any further samples |
| TrafficMonitoring.ResetSlotAveragesSamples | matsim/src/main/java/org/matsim/core/trafficmonitoring/TravelTimeDataArray.java:52-56 | from a reset slot (-1, 0), the stored value after one or more samples is exactly their arithmetic mean |
| TrafficMonitoring.FirstSampleStoredExactly | matsim/src/main/java/org/matsim/core/trafficmonitoring/TravelTimeDataArray.java:71-77 | the first sample added to a reset slot is stored as it is, because -1 times a count of 0 contributes nothing |
| TrafficMonitoring.TravelTimeDataArray.constructor | matsim/src/main/java/org/matsim/core/trafficmonitoring/TravelTimeDataArray.java:44-49 | fresh arrays of `numSlots` slots, every slot reset to count 0 and time -1 |
| TrafficMonitoring.TravelTimeDataArray.ResetTravelTimes | matsim/src/main/java/org/matsim/core/trafficmonitoring/TravelTimeDataArray.java:51-57 | every slot has count 0 and travel time -1 |
| TrafficMonitoring.TravelTimeDataArray.SetTravelTime | matsim/src/main/java/org/matsim/core/trafficmonitoring/TravelTimeDataArray.java:59-67 | that slot's count becomes 1 and its time the given one; every other slot is unchanged |
| TrafficMonitoring.TravelTimeDataArray.AddTravelTime | matsim/src/main/java/org/matsim/core/trafficmonitoring/TravelTimeDataArray.java:69-79 | that slot becomes `(old * cnt + t) / (cnt + 1)` with count `cnt + 1`, one step of the running mean `AddAll`; every other slot is unchanged |
| TrafficMonitoring.TravelTimeDataArray.GetTravelTime | matsim/src/main/java/org/matsim/core/trafficmonitoring/TravelTimeDataArray.java:81-90 | a non-negative stored time is returned with nothing changed. Otherwise `length / freespeed` is returned and written into that slot only |
| JavaInts.ToInt32 | contribs/freight/src/main/java/org/matsim/contrib/freight/carrier/CarrierService.java:164-167 | the result is a 32-bit `int` congruent to the exact value modulo 2^32, and equal to it when it fits |
| JavaInts.AddInt32 | contribs/freight/src/main/java/org/matsim/contrib/freight/usecases/analysis/ClusterServices.java:53 | `int` addition: the exact sum when it fits, otherwise the sum shifted by 2^32 |
| JavaInts.AddInt32IsWrappedSum | contribs/freight/src/main/java/org/matsim/contrib/freight/usecases/analysis/ClusterServices.java:58 | `int` addition is the exact sum wrapped to 32 bits |
| JavaInts.ToInt32OfSum | contribs/freight/src/main/java/org/matsim/contrib/freight/usecases/analysis/ClusterServices.java:58 | wrapping a running sum after every addition gives the same as wrapping the exact sum once |
| FreightCarrier.CarrierService.WithLinkId | contribs/freight/src/main/java/org/matsim/contrib/freight/carrier/CarrierService.java:117-123 | only the link changes; every other field is kept |
| FreightCarrier.CarrierService.FacilityId | contribs/freight/src/main/java/org/matsim/contrib/freight/carrier/CarrierService.java:125-128 | always null |
| FreightCarrier.CarrierService.Equals | contribs/freight/src/main/java/org/matsim/contrib/freight/carrier/CarrierService.java:173-188 | equal exactly to a non-null service with the same id, two null ids counting as equal |
| FreightCarrier.CarrierService.HashCode | contribs/freight/src/main/java/org/matsim/contrib/freight/carrier/CarrierService.java:162-168 | the hash code is a 32-bit `int` |
| FreightCarrier.EqualServicesHashEqually | contribs/freight/src/main/java/org/matsim/contrib/freight/carrier/CarrierService.java:162-188 | equal services have equal hash codes, whatever the ids' hash function |
| FreightCarrier.EqualsIsEquivalence | contribs/freight/src/main/java/org/matsim/contrib/freight/carrier/CarrierService.java:173-188 | `equals` is reflexive, symmetric and transitive |
| FreightCarrier.Builder.NewInstance | contribs/freight/src/main/java/org/matsim/contrib/freight/carrier/CarrierService.java:16-36 | builds a service at the given link with name "service", duration 0, time window [0, `Integer.MAX_VALUE`], demand 0 and no coordinate |
| FreightCarrier.Builder.NewInstanceAtCoord | contribs/freight/src/main/java/org/matsim/contrib/freight/carrier/CarrierService.java:19-41 | builds a service at the given coordinate with no link and the same defaults |
| FreightCarrier.Builder.Build | contribs/freight/src/main/java/org/matsim/contrib/freight/carrier/CarrierService.java:73-75 | the service copies every builder setting (constructor at lines 100-108) |
| FreightCarrier.Builder.SetName | contribs/freight/src/main/java/org/matsim/contrib/freight/carrier/CarrierService.java:43-46 | returns the same builder; the built service differs only in its name |
| FreightCarrier.Builder.SetServiceDuration | contribs/freight/src/main/java/org/matsim/contrib/freight/carrier/CarrierService.java:54-57 | returns the same builder; the built service differs only in its duration |
| FreightCarrier.Builder.SetServiceStartTimeWindow | contribs/freight/src/main/java/org/matsim/contrib/freight/carrier/CarrierService.java:68-71 | returns the same builder; the built service differs only in its time window |
| FreightCarrier.Builder.SetCapacityDemand | contribs/freight/src/main/java/org/matsim/contrib/freight/carrier/CarrierService.java:77-80 | returns the same builder; the built service differs only in its demand |
| FreightCarrier.Builder.SetLinkId | contribs/freight/src/main/java/org/matsim/contrib/freight/carrier/CarrierService.java:82-84 | the built service differs only in its link |
| ClusterServices.ClustersConserveGroup | contribs/freight/src/main/java/org/matsim/contrib/freight/usecases/analysis/ClusterServices.java:51-64 | the clusters, one after another, are the group's services in order, so the exact total demand and the total duration are conserved |
| ClusterServices.CapDemandIsWrappedTotal | contribs/freight/src/main/java/org/matsim/contrib/freight/usecases/analysis/ClusterServices.java:46-59 | the running `int` sum `capDemand` of a cluster is its exact total demand wrapped to 32 bits, and equals it whenever that total fits into an `int` |
| ClusterServices.ClustersShape | contribs/freight/src/main/java/org/matsim/contrib/freight/usecases/analysis/ClusterServices.java:51-64 | the first cluster is empty iff the group is empty or its first service alone exceeds the cap. Later clusters are non-empty. Every service after a cluster's first joined without the running `int` sum passing the cap. A cluster is closed exactly when the next service would push that sum past the cap. So a cluster's sum exceeds the cap only for a single service. These clauses fix the greedy split |
| ClusterServices.WrappedSumJoinsCluster | contribs/freight/src/main/java/org/matsim/contrib/freight/usecases/analysis/ClusterServices.java:53-59 | demands `Integer.MAX_VALUE` and 1 with cap 230 give an empty first cluster and then one cluster holding both, because `Integer.MAX_VALUE + 1` wraps to `Integer.MIN_VALUE`; that cluster's service gets demand `Integer.MIN_VALUE` |
| ClusterServices.ClusterService | contribs/freight/src/main/java/org/matsim/contrib/freight/usecases/analysis/ClusterServices.java:78-83 | the new service has the cluster id, the group's link and time window, and the given `capDemand` and duration |
| ClusterServices.Removals | contribs/freight/src/main/java/org/matsim/contrib/freight/usecases/analysis/ClusterServices.java:62 | one `remove(service.getId())` per service, in order |
| ClusterServices.GroupReplacesServices | contribs/freight/src/main/java/org/matsim/contrib/freight/usecases/analysis/ClusterServices.java:45-68 | if no group member already has one of the group's cluster ids, clustering a group removes every group member and adds one service per cluster, numbered 1, 2, ... |
| ClusterServices.CreateServiceAndIncrementCounter | contribs/freight/src/main/java/org/matsim/contrib/freight/usecases/analysis/ClusterServices.java:75-85 | returns the counter plus one and puts the cluster service under that number's id; nothing else changes |
| ClusterServices.ClusterGroup | contribs/freight/src/main/java/org/matsim/contrib/freight/usecases/analysis/ClusterServices.java:45-68 | keeps `capDemand` as Java's `int` running sum of the open cluster. Creates as many services as the greedy `Clusters` has clusters, and performs exactly the removes and puts of `GroupOps` on the carrier's map |
| ClusterServices.Distinct | contribs/freight/src/main/java/org/matsim/contrib/freight/usecases/analysis/ClusterServices.java:37-42 | the grouping keys: each value once, and nothing else |
| ClusterServices.InOrder | contribs/freight/src/main/java/org/matsim/contrib/freight/usecases/analysis/ClusterServices.java:37 | the carrier's services in its map's iteration order |
| ClusterServices.LinkIds | contribs/freight/src/main/java/org/matsim/contrib/freight/usecases/analysis/ClusterServices.java:37-40 | exactly the links some service is on |
| ClusterServices.OnLink | contribs/freight/src/main/java/org/matsim/contrib/freight/usecases/analysis/ClusterServices.java:37 | exactly the services on the link |
| ClusterServices.StartWindows | contribs/freight/src/main/java/org/matsim/contrib/freight/usecases/analysis/ClusterServices.java:42-45 | exactly the time windows some service of the link has |
| ClusterServices.InWindow | contribs/freight/src/main/java/org/matsim/contrib/freight/usecases/analysis/ClusterServices.java:42-51 | exactly the link's services with that time window |
| ClusterServices.ClusterLink | contribs/freight/src/main/java/org/matsim/contrib/freight/usecases/analysis/ClusterServices.java:41-68 | performs the operations of every time-window group of the link, in order |
| ClusterServices.ClusterAllServicesOnTheSameLinkWithMaxCap | contribs/freight/src/main/java/org/matsim/contrib/freight/usecases/analysis/ClusterServices.java:32-73 | performs exactly the operations of every (link, time window) group, in grouping order, on the carrier's map |
| ClusterServices.ClusteringRemovesOriginalKeys | contribs/freight/src/main/java/org/matsim/contrib/freight/usecases/analysis/ClusterServices.java:37-63 | every service falls into some group, so clustering removes exactly the carrier's original keys |
| ClusterServices.ClusteringReplacesEveryService | contribs/freight/src/main/java/org/matsim/contrib/freight/usecases/analysis/ClusterServices.java:32-73 | for a carrier none of whose ids is already a cluster id, afterwards no original service is left. Every service is a cluster service under its own id, on the link and in the time window that id names |
| VehiclesTracking.DecrementAndGet | playgrounds/christoph/src/main/java/playground/christoph/evacuation/mobsim/VehiclesTracker.java:269 | one seat taken, with Java's `int` wrap-around |
| VehiclesTracking.IncrementAndGet | playgrounds/christoph/src/main/java/playground/christoph/evacuation/mobsim/VehiclesTracker.java:340 | one seat given back, with Java's `int` wrap-around |
| VehiclesTracking.IncrementUndoesDecrement | playgrounds/christoph/src/main/java/playground/christoph/evacuation/mobsim/VehiclesTracker.java:338-341 | incrementing after decrementing restores every counter value |
| VehiclesTracking.RemoveFirst | playgrounds/christoph/src/main/java/playground/christoph/evacuation/mobsim/VehiclesTracker.java:350 | `List.remove(Object)` leaves a list without the element unchanged and otherwise shortens it by one |
| VehiclesTracking.RemoveFirstRemovesFirstOccurrence | playgrounds/christoph/src/main/java/playground/christoph/evacuation/mobsim/VehiclesTracker.java:350 | the result is the list with exactly the element at `FirstIndex(l, x)` cut out, the position where `x` occurs and does not occur before |
| VehiclesTracking.RemoveFirstUndoesAppend | playgrounds/christoph/src/main/java/playground/christoph/evacuation/mobsim/VehiclesTracker.java:350 | removing what was just appended, and was not there before, gives the list back |
| VehiclesTracking.TrackerState.IsVehicleEnroute | playgrounds/christoph/src/main/java/playground/christoph/evacuation/mobsim/VehiclesTracker.java:155-157 | true exactly for enroute vehicles |
| VehiclesTracking.TrackerState.EnrouteVehiclesOnLink | playgrounds/christoph/src/main/java/playground/christoph/evacuation/mobsim/VehiclesTracker.java:163-165 | the link's list, null for a link the tracker does not know |
| VehiclesTracking.TrackerState.FreeVehicleCapacity | playgrounds/christoph/src/main/java/playground/christoph/evacuation/mobsim/VehiclesTracker.java:167-169 | the vehicle's counter; a vehicle without one is a null dereference |
| VehiclesTracking.TrackerState.VehicleDriverId | playgrounds/christoph/src/main/java/playground/christoph/evacuation/mobsim/VehiclesTracker.java:197-199 | the driver, null exactly for a vehicle without one |
| VehiclesTracking.TrackerState.PassengersVehicle | playgrounds/christoph/src/main/java/playground/christoph/evacuation/mobsim/VehiclesTracker.java:209-211 | the vehicle, null exactly for a person who is not a passenger |
| VehiclesTracking.TrackerState.VehicleLinkId | playgrounds/christoph/src/main/java/playground/christoph/evacuation/mobsim/VehiclesTracker.java:185-195 | null exactly for a null vehicle id, a vehicle without a driver, or a driver who is not a known agent; otherwise the driver's current link |
| VehiclesTracking.TrackerState.PassengerLinkId | playgrounds/christoph/src/main/java/playground/christoph/evacuation/mobsim/VehiclesTracker.java:201-204 | present exactly for a passenger whose vehicle has a driver who is a known agent, and then the current link of that driver |
| VehiclesTracking.PassengerRegistered | playgrounds/christoph/src/main/java/playground/christoph/evacuation/mobsim/VehiclesTracker.java:175-179 | records passenger to vehicle and appends the passenger to the vehicle's list; nothing else changes |
| VehiclesTracking.PickupPlanned | playgrounds/christoph/src/main/java/playground/christoph/evacuation/mobsim/VehiclesTracker.java:151-153 | records the planned pickup vehicle; nothing else changes |
| VehiclesTracking.Enter | playgrounds/christoph/src/main/java/playground/christoph/evacuation/mobsim/VehiclesTracker.java:267-290 | a seat is taken. A registered passenger changes nothing else. Anyone else becomes the vehicle's driver both ways, and the vehicle becomes enroute, unparked and last on the driver's link |
| VehiclesTracking.Leave | playgrounds/christoph/src/main/java/playground/christoph/evacuation/mobsim/VehiclesTracker.java:338-360 | a seat is given back. When a driver leaves, the vehicle stops being enroute, leaves its link's list and is parked at that link; pairings stay |
| VehiclesTracking.Arrival | playgrounds/christoph/src/main/java/playground/christoph/evacuation/mobsim/VehiclesTracker.java:362-390 | a driver's arrival removes both driver and vehicle mappings and every passenger's mapping, and empties the passenger list. Anyone else's arrival changes nothing |
| VehiclesTracking.LinkEnter | playgrounds/christoph/src/main/java/playground/christoph/evacuation/mobsim/VehiclesTracker.java:392-399 | a driver's vehicle is appended to the link's list; anyone else's event changes nothing |
| VehiclesTracking.LinkLeave | playgrounds/christoph/src/main/java/playground/christoph/evacuation/mobsim/VehiclesTracker.java:401-408 | a driver's vehicle is removed from the link's list; anyone else's event changes nothing |
| VehiclesTracking.Cleared | playgrounds/christoph/src/main/java/playground/christoph/evacuation/mobsim/VehiclesTracker.java:410-420 | every collection is empty except the capacity counters and the agents |
| VehiclesTracking.EnterThenLeaveRestoresCapacity | playgrounds/christoph/src/main/java/playground/christoph/evacuation/mobsim/VehiclesTracker.java:267-360 | entering and then leaving a vehicle restores every capacity counter |
| VehiclesTracking.DriverEnterThenLeaveParks | playgrounds/christoph/src/main/java/playground/christoph/evacuation/mobsim/VehiclesTracker.java:277-347 | a driver entering and then leaving parks the vehicle at the driver's link, no longer enroute, still paired with the driver |
| VehiclesTracking.DriverEnterThenLeaveKeepsLinkLists | playgrounds/christoph/src/main/java/playground/christoph/evacuation/mobsim/VehiclesTracker.java:287-350 | a driver entering and then leaving on the same link leaves every link list as it was |
| VehiclesTracking.RegisteredPassengerEnters | playgrounds/christoph/src/main/java/playground/christoph/evacuation/mobsim/VehiclesTracker.java:276-278 | a person registered as a passenger can enter that vehicle and does not become a driver. No pairing, enroute, parking or link state changes |
| VehiclesTracking.EnteredVehicleIsOnDriversLink | playgrounds/christoph/src/main/java/playground/christoph/evacuation/mobsim/VehiclesTracker.java:277-289 | after a driver enters, the vehicle is found on the driver's link with that driver, enroute and not parked |
| VehiclesTracking.PassengerIsOnVehiclesLink | playgrounds/christoph/src/main/java/playground/christoph/evacuation/mobsim/VehiclesTracker.java:201-204 | a registered passenger is located where the vehicle is |
| VehiclesTracking.EnterKeepsPairing | playgrounds/christoph/src/main/java/playground/christoph/evacuation/mobsim/VehiclesTracker.java:279-283 | entering keeps the driver and vehicle maps mutual inverses when neither side is paired with someone else |
| VehiclesTracking.ArrivalKeepsPairing | playgrounds/christoph/src/main/java/playground/christoph/evacuation/mobsim/VehiclesTracker.java:366-368 | arrival keeps the driver and vehicle maps mutual inverses |
| VehiclesTracking.ArrivalReleasesVehicle | playgrounds/christoph/src/main/java/playground/christoph/evacuation/mobsim/VehiclesTracker.java:366-388 | after a driver's arrival the vehicle has no driver and no position, whatever the drivers' current links, none of its passengers is still a passenger, and its list is empty |
| VehiclesTracking.NonDriverLinkEventsChangeNothing | playgrounds/christoph/src/main/java/playground/christoph/evacuation/mobsim/VehiclesTracker.java:392-408 | link events of a person who drives nothing change nothing |
| VehiclesTracking.LinkEnterThenLeave | playgrounds/christoph/src/main/java/playground/christoph/evacuation/mobsim/VehiclesTracker.java:392-408 | a vehicle that was not on a link and enters and leaves it restores the whole state |
| VehiclesTracking.ResetForgetsTrips | playgrounds/christoph/src/main/java/playground/christoph/evacuation/mobsim/VehiclesTracker.java:410-420 | after `reset` nobody drives or rides, nothing is enroute or parked, capacities and agents survive, and a second reset changes nothing |
| VehiclesTracking.VehiclesTracker.constructor | playgrounds/christoph/src/main/java/playground/christoph/evacuation/mobsim/VehiclesTracker.java:110-127 | every collection starts empty |
| VehiclesTracking.VehiclesTracker.AddPlannedPickupVehicle | playgrounds/christoph/src/main/java/playground/christoph/evacuation/mobsim/VehiclesTracker.java:151-153 | the state becomes `PickupPlanned` of the old state |
| VehiclesTracking.VehiclesTracker.AddPassengerToVehicle | playgrounds/christoph/src/main/java/playground/christoph/evacuation/mobsim/VehiclesTracker.java:175-179 | the state becomes `PassengerRegistered` of the old state |
| VehiclesTracking.VehiclesTracker.HandlePersonEntersVehicle | playgrounds/christoph/src/main/java/playground/christoph/evacuation/mobsim/VehiclesTracker.java:267-333 | the state becomes `Enter` of the old state |
| VehiclesTracking.VehiclesTracker.HandlePersonLeavesVehicle | playgrounds/christoph/src/main/java/playground/christoph/evacuation/mobsim/VehiclesTracker.java:338-360 | the state becomes `Leave` of the old state |
| VehiclesTracking.VehiclesTracker.HandleAgentArrival | playgrounds/christoph/src/main/java/playground/christoph/evacuation/mobsim/VehiclesTracker.java:362-390 | the state becomes `Arrival` of the old state; the loop removes the passengers one by one |
| VehiclesTracking.VehiclesTracker.HandleLinkEnter | playgrounds/christoph/src/main/java/playground/christoph/evacuation/mobsim/VehiclesTracker.java:392-399 | the state becomes `LinkEnter` of the old state |
| VehiclesTracking.VehiclesTracker.HandleLinkLeave | playgrounds/christoph/src/main/java/playground/christoph/evacuation/mobsim/VehiclesTracker.java:401-408 | the state becomes `LinkLeave` of the old state |
| VehiclesTracking.VehiclesTracker.Reset | playgrounds/christoph/src/main/java/playground/christoph/evacuation/mobsim/VehiclesTracker.java:410-420 | the state becomes `Cleared` of the old state |

## Left out

- Doubles are modelled as exact reals; rounding, infinities and NaN are not modelled.
- The `ForkJoinPool` parallel stream of the `VehicleData` constructor is modelled as a sequential map-and-filter; the order of a parallel collection into a map does not matter for the resulting map.
- The entry factory, the detour data provider, the cost calculator and the infeasibility sentinel are parameters: their code is not part of this model.
- `DvrpVehicle`, `DrtRequest`, `DrtStopTask` and the schedule are reduced to ids, begin and end times and the deadlines of the bound requests.
- VehicleData.VehicleData.constructor: the entry factory must return entries for the vehicle it is asked about (`KeepsVehicle`); the factory's code is not part of this model.
- VehicleData.VehicleData.constructor: a repeated vehicle id, on which `Collectors.toMap` throws, is excluded by a precondition rather than modelled as an exception.
- VehicleData.VehicleData.GetEntries: the read-only collection is returned as a set; entries are distinct in a snapshot keyed by vehicle, so nothing is lost.
- VehicleData.MoreDropoffsNeverRelaxArrival and VehicleData.MorePickupsNeverRelaxDeparture: the added deadline must be at most `Double.MAX_VALUE`, which every finite double is.
- SingleVehicleInsertion.SingleVehicleInsertionProblem.FindBestInsertion: "every candidate evaluated exactly once, in order" is stated through the ghost trace of materialised candidates; the cost calculator is a pure function, so repeated calls are not observable.
- TrafficMonitoring.TravelTimeDataArray.AddTravelTime: the 16-bit `short` count is required to be below 32767 instead of modelling its overflow to a negative count.
- TrafficMonitoring.TravelTimeDataArray.GetTravelTime: the free speed is an input and must be non-zero (Java would divide by zero into an infinity); `link.getFreespeed(now)` is not modelled.
- The warning and `Thread.dumpStack()` of `setTravelTime`, `printDebug`, and all logging are left out.
- FreightCarrier.CarrierService.WithLinkId: a service is a value, so `setLinkId` yields an updated copy; aliasing of the mutable Java object is not modelled.
- FreightCarrier.CarrierService.HashCode: the id's own `hashCode` is a parameter.
- `toString`, `getCoord` and the other one-line getters of `CarrierService` are the datatype's fields.
- The cluster service id, the string `link_start_end_counter` built at ClusterServices.java:78, is a structured id (`ClusterServiceId`), distinct from every named id (`ServiceId`). A collision of that string with an ordinary service's name is therefore not modelled: in Java a service already named, say, `L_0.0_3600.0_1` in the group on link `L` with window [0, 3600] is overwritten by the first `put` (line 79), and the later `remove(service.getId())` (line 62) then deletes the new cluster service instead. A collision with a `ClusterServiceId` left by an earlier clustering is modelled: `ClusterGroup` applies its puts and removes to whatever the map holds.
- ClusterServices.GroupReplacesServices: its precondition `FreshClusterIds` (no service of the group already carries one of the cluster ids it creates) limits only this lemma, not `ClusterGroup`.
- ClusterServices.ClusteringReplacesEveryService: it requires that no original id is a `ClusterServiceId`, so clustering an already clustered carrier is outside this theorem; `ClusterAllServicesOnTheSameLinkWithMaxCap` itself has no such precondition.
- `groupingBy` into a `HashMap` visits groups in an unspecified order; the model visits links and time windows in order of first appearance, and the carrier's own map order is the parameter `serviceOrder`.
- ClusterServices.ClusterGroup: the counter `createdServices` is a `nat`; it counts at most one service per service of the group, so it stays far below `Integer.MAX_VALUE` for any list Java can hold. The cap `maxCapDemandPerService` is any integer, which includes every Java `int`.
- ClusterServices.ClusterAllServicesOnTheSameLinkWithMaxCap: a service without a link, on which `groupingBy` throws, is excluded by a precondition; the `countOldServices`/`countNewServices` totals only feed the log and are left out.
- `ClusterServices.main` and the XML reading and writing of carriers are left out.
- `notifyMobsimInitialized` of the tracker (reading agents, vehicles, facilities and links from the scenario) is left out; the state it sets up is taken as given.
- The tracker's re-emission of leave events for passengers through the events manager, the passenger agents' callbacks and `arrangeNextAgentState`, `setInternalInterface`, and the empty `doSimStep`/`onPrepareSim`/`afterSim` are left out.
- The tracker's consistency checks only log; they are left out, except that their null dereferences are preconditions (`CanEnter`).
- `getVehicleDestination` needs the driver's current leg and route, which are not part of this model.
- An agent's current link is a parameter `currentLink` rather than a query of the agent object.
- VehiclesTracking.Enter, VehiclesTracking.Leave, VehiclesTracking.Arrival, VehiclesTracking.LinkEnter, VehiclesTracking.LinkLeave and VehiclesTracking.PassengerRegistered: the `NullPointerException` paths are preconditions, not modelled exceptions.
