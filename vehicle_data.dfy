/**
 * The fleet snapshot of the demand-responsive transport optimizer: one `Entry`
 * per offerable vehicle, taken at a fixed `currentTime`, and the deadlines that
 * each scheduled stop derives from the requests bound to it.
 */
module VehicleData {
  import opened Wrappers

  type VehicleId = string
  type LinkId = string
  type RequestId = string
  type TaskId = string

  /** `Double.MAX_VALUE`, the largest finite double, written out exactly. */
  const DOUBLE_MAX_VALUE: real := 179769313486231570814527423731704356798070567525844996598917476803157260780028538760589558632766878171540458953514382464234321326889464182768467546703537516986049910576551282076245490090389328944075868508455133942304583236903222948165808559332123348274797826204144723168738177180919299881250404026184124858368.0

  datatype DvrpVehicle = DvrpVehicle(id: VehicleId, capacity: int)

  /** The two deadlines of a request that a stop cares about. */
  datatype DrtRequest = DrtRequest(id: RequestId, latestStartTime: real, latestArrivalTime: real)

  /**
   * A scheduled stop task. The source keeps the requests picked up and dropped
   * off here in maps keyed by request id; only their values matter here, so
   * each map is given by the sequence of its values.
   */
  datatype DrtStopTask = DrtStopTask(
    id: TaskId,
    beginTime: real,
    endTime: real,
    pickupRequests: seq<DrtRequest>,
    dropoffRequests: seq<DrtRequest>)

  /** Where a vehicle is at snapshot time; `task` is `None` while the schedule is only planned. */
  datatype Start = Start(task: Option<TaskId>, link: LinkId, time: real, occupancy: int)

  datatype Stop = Stop(
    task: DrtStopTask,
    latestArrivalTime: real,    // relates to the dropped-off passengers' maximum ride time
    latestDepartureTime: real,  // relates to the picked-up passengers' maximum wait time
    occupancyChange: int,       // pickups minus dropoffs
    outgoingOccupancy: int)

  datatype Entry = Entry(vehicle: DvrpVehicle, start: Start, stops: seq<Stop>)

  function Max(a: real, b: real): real {
    if a >= b then a else b
  }

  /** `DoubleStream.min()`: the smallest of the given times, or `None` when there are none. */
  function MinTime(times: seq<real>): (r: Option<real>)
    ensures r.None? <==> times == []
    ensures r.Some? ==> r.value in times
    ensures r.Some? ==> forall t :: t in times ==> r.value <= t
  {
    if times == [] then None
    else
      var rest := MinTime(times[1..]);
      assert forall t :: t in times ==> t == times[0] || t in times[1..];
      if rest.None? || times[0] <= rest.value then Some(times[0]) else rest
  }

  /**
   * The deadline of a stop: the earliest of the latest allowed times, but never
   * earlier than the already scheduled time (a stop delayed past a request's
   * deadline admits no further delay, instead of becoming infeasible), and
   * `Double.MAX_VALUE` when no request constrains the stop.
   */
  function MaxTimeConstraint(latestAllowedTimes: seq<real>, scheduledTime: real): (r: real)
    ensures r >= scheduledTime
    ensures forall t :: t in latestAllowedTimes ==> r <= t || r == scheduledTime
    ensures r == scheduledTime || r in latestAllowedTimes || (latestAllowedTimes == [] && r == DOUBLE_MAX_VALUE)
    ensures latestAllowedTimes != [] ==> exists t :: t in latestAllowedTimes && t <= r
    ensures latestAllowedTimes == [] ==> r == Max(DOUBLE_MAX_VALUE, scheduledTime)
  {
    Max(MinTime(latestAllowedTimes).GetOr(DOUBLE_MAX_VALUE), scheduledTime)
  }

  function LatestArrivalTimes(requests: seq<DrtRequest>): (ts: seq<real>)
    ensures |ts| == |requests|
    ensures forall i :: 0 <= i < |requests| ==> ts[i] == requests[i].latestArrivalTime
  {
    seq(|requests|, i requires 0 <= i < |requests| => requests[i].latestArrivalTime)
  }

  function LatestStartTimes(requests: seq<DrtRequest>): (ts: seq<real>)
    ensures |ts| == |requests|
    ensures forall i :: 0 <= i < |requests| ==> ts[i] == requests[i].latestStartTime
  {
    seq(|requests|, i requires 0 <= i < |requests| => requests[i].latestStartTime)
  }

  /** The `Stop` constructor: derives the two deadlines and the occupancy change from the stop task. */
  function NewStop(task: DrtStopTask, outputOccupancy: int): (s: Stop)
    ensures s.task == task && s.outgoingOccupancy == outputOccupancy
    ensures s.occupancyChange == |task.pickupRequests| - |task.dropoffRequests|
    ensures s.latestArrivalTime >= task.beginTime
    ensures s.latestDepartureTime >= task.endTime
    ensures forall r :: r in task.dropoffRequests ==>
              s.latestArrivalTime <= r.latestArrivalTime || s.latestArrivalTime == task.beginTime
    ensures forall r :: r in task.pickupRequests ==>
              s.latestDepartureTime <= r.latestStartTime || s.latestDepartureTime == task.endTime
    ensures task.dropoffRequests != [] ==> exists r :: r in task.dropoffRequests && r.latestArrivalTime <= s.latestArrivalTime
    ensures task.pickupRequests != [] ==> exists r :: r in task.pickupRequests && r.latestStartTime <= s.latestDepartureTime
    ensures task.dropoffRequests == [] ==> s.latestArrivalTime == Max(DOUBLE_MAX_VALUE, task.beginTime)
    ensures task.pickupRequests == [] ==> s.latestDepartureTime == Max(DOUBLE_MAX_VALUE, task.endTime)
  {
    var arrival := MaxTimeConstraint(LatestArrivalTimes(task.dropoffRequests), task.beginTime);
    var departure := MaxTimeConstraint(LatestStartTimes(task.pickupRequests), task.endTime);
    assert forall r :: r in task.dropoffRequests ==> r.latestArrivalTime in LatestArrivalTimes(task.dropoffRequests) by {
      forall r | r in task.dropoffRequests ensures r.latestArrivalTime in LatestArrivalTimes(task.dropoffRequests) {
        var i :| 0 <= i < |task.dropoffRequests| && task.dropoffRequests[i] == r;
      }
    }
    assert forall r :: r in task.pickupRequests ==> r.latestStartTime in LatestStartTimes(task.pickupRequests) by {
      forall r | r in task.pickupRequests ensures r.latestStartTime in LatestStartTimes(task.pickupRequests) {
        var i :| 0 <= i < |task.pickupRequests| && task.pickupRequests[i] == r;
      }
    }
    Stop(task, arrival, departure, |task.pickupRequests| - |task.dropoffRequests|, outputOccupancy)
  }

  /**
   * Binding one more dropoff request to a stop never relaxes its arrival
   * deadline, as long as the new deadline is a finite double.
   */
  lemma {:induction false} MoreDropoffsNeverRelaxArrival(task: DrtStopTask, request: DrtRequest, outputOccupancy: int)
    requires request.latestArrivalTime <= DOUBLE_MAX_VALUE
    ensures NewStop(task.(dropoffRequests := task.dropoffRequests + [request]), outputOccupancy).latestArrivalTime
            <= NewStop(task, outputOccupancy).latestArrivalTime
  {
    var task' := task.(dropoffRequests := task.dropoffRequests + [request]);
    var ts := LatestArrivalTimes(task.dropoffRequests);
    var ts' := LatestArrivalTimes(task'.dropoffRequests);
    assert ts' == ts + [request.latestArrivalTime];
    MinTimeOfAppend(ts, request.latestArrivalTime);
    assert NewStop(task', outputOccupancy).latestArrivalTime == MaxTimeConstraint(ts', task.beginTime);
    assert NewStop(task, outputOccupancy).latestArrivalTime == MaxTimeConstraint(ts, task.beginTime);
  }

  /** Binding one more pickup request to a stop never relaxes its departure deadline. */
  lemma {:induction false} MorePickupsNeverRelaxDeparture(task: DrtStopTask, request: DrtRequest, outputOccupancy: int)
    requires request.latestStartTime <= DOUBLE_MAX_VALUE
    ensures NewStop(task.(pickupRequests := task.pickupRequests + [request]), outputOccupancy).latestDepartureTime
            <= NewStop(task, outputOccupancy).latestDepartureTime
  {
    var task' := task.(pickupRequests := task.pickupRequests + [request]);
    var ts := LatestStartTimes(task.pickupRequests);
    var ts' := LatestStartTimes(task'.pickupRequests);
    assert ts' == ts + [request.latestStartTime];
    MinTimeOfAppend(ts, request.latestStartTime);
    assert NewStop(task', outputOccupancy).latestDepartureTime == MaxTimeConstraint(ts', task.endTime);
    assert NewStop(task, outputOccupancy).latestDepartureTime == MaxTimeConstraint(ts, task.endTime);
  }

  lemma {:induction false} MinTimeOfAppend(ts: seq<real>, t: real)
    ensures MinTime(ts + [t]).Some?
    ensures MinTime(ts + [t]).value <= MinTime(ts).GetOr(t)
  {
    assert t in ts + [t];
    if ts != [] {
      assert MinTime(ts).value in ts + [t];
    }
  }

  /** `EntryFactory.create`: the entry of an offerable vehicle at the given time, `None` (null) otherwise. */
  type EntryFactory = (DvrpVehicle, real) -> Option<Entry>

  /** The non-null entries the factory creates for the vehicles, in stream order (map, then filter). */
  function CreatedEntries(vehicles: seq<DvrpVehicle>, factory: EntryFactory, time: real): (es: seq<Entry>)
    ensures |es| <= |vehicles|
    ensures forall e :: e in es <==> exists v :: v in vehicles && factory(v, time) == Some(e)
  {
    if vehicles == [] then []
    else
      var rest := CreatedEntries(vehicles[1..], factory, time);
      assert forall v :: v in vehicles <==> v == vehicles[0] || v in vehicles[1..];
      match factory(vehicles[0], time)
      case Some(e) => [e] + rest
      case None => rest
  }

  /** `Collectors.toMap` keyed by the entry's own vehicle id throws on a repeated key. */
  predicate DistinctVehicleIds(es: seq<Entry>) {
    forall i, j :: 0 <= i < j < |es| ==> es[i].vehicle.id != es[j].vehicle.id
  }

  /** The entries after the first have distinct vehicle ids, none of them the first entry's. */
  lemma DistinctVehicleIdsTail(es: seq<Entry>)
    requires es != [] && DistinctVehicleIds(es)
    ensures DistinctVehicleIds(es[1..])
    ensures forall e :: e in es[1..] ==> e.vehicle.id != es[0].vehicle.id
  {
    var tail := es[1..];
    forall i, j | 0 <= i < j < |tail| ensures tail[i].vehicle.id != tail[j].vehicle.id {
      assert tail[i] == es[i + 1] && tail[j] == es[j + 1];
    }
    forall e | e in tail ensures e.vehicle.id != es[0].vehicle.id {
      var j :| 0 <= j < |tail| && tail[j] == e;
      assert es[j + 1] == e;
    }
  }

  function ToMap(es: seq<Entry>): (m: map<VehicleId, Entry>)
    requires DistinctVehicleIds(es)
    ensures forall e :: e in es ==> e.vehicle.id in m && m[e.vehicle.id] == e
    ensures forall id :: id in m ==> m[id] in es && m[id].vehicle.id == id
    ensures |m| == |es|
  {
    if es == [] then map[]
    else
      var tail := es[1..];
      DistinctVehicleIdsTail(es);
      var rest := ToMap(tail);
      assert forall e :: e in es <==> e == es[0] || e in tail;
      rest[es[0].vehicle.id := es[0]]
  }

  /** A snapshot is consistent when every entry is stored under its own vehicle's id. */
  ghost predicate KeyedByVehicle(entries: map<VehicleId, Entry>) {
    forall id :: id in entries ==> entries[id].vehicle.id == id
  }

  /** The factory keeps the vehicle it is asked about. */
  ghost predicate KeepsVehicle(factory: EntryFactory) {
    forall v: DvrpVehicle, t: real {:trigger factory(v, t)} :: factory(v, t).Some? ==> factory(v, t).value.vehicle == v
  }

  /**
   * The snapshot holds exactly the vehicles for which the factory returned an
   * entry, each keyed by its own vehicle id.
   */
  lemma SnapshotHoldsOfferableVehicles(vehicles: seq<DvrpVehicle>, factory: EntryFactory, time: real)
    requires DistinctVehicleIds(CreatedEntries(vehicles, factory, time))
    ensures var m := ToMap(CreatedEntries(vehicles, factory, time));
      && KeyedByVehicle(m)
      && (forall v :: v in vehicles && factory(v, time).Some? ==>
            var e := factory(v, time).value; e.vehicle.id in m && m[e.vehicle.id] == e)
      && (forall id :: id in m ==> exists v :: v in vehicles && factory(v, time) == Some(m[id]))
  {
  }

  /** `updateEntry` on the map: put the new entry, or remove the key when there is none. */
  function Updated(entries: map<VehicleId, Entry>, id: VehicleId, created: Option<Entry>): (m: map<VehicleId, Entry>)
    ensures created.Some? ==> id in m && m[id] == created.value
    ensures created.None? ==> id !in m
    ensures forall k :: k != id ==> (k in m <==> k in entries)
    ensures forall k :: k != id && k in m ==> m[k] == entries[k]
  {
    match created
    case Some(e) => entries[id := e]
    case None => entries - {id}
  }

  /** Replacing one vehicle's entry with an entry of that vehicle keeps the snapshot consistent. */
  lemma UpdateKeepsKeying(entries: map<VehicleId, Entry>, vehicle: DvrpVehicle, created: Option<Entry>)
    requires KeyedByVehicle(entries)
    requires created.Some? ==> created.value.vehicle.id == vehicle.id
    ensures KeyedByVehicle(Updated(entries, vehicle.id, created))
  {
  }

  /** In a consistent snapshot, distinct keys hold distinct entries, so there are as many entries as keys. */
  lemma {:induction false} EntryCountMatchesKeys(entries: map<VehicleId, Entry>)
    requires KeyedByVehicle(entries)
    ensures |entries.Values| == |entries.Keys|
  {
    if entries != map[] {
      var k :| k in entries;
      var rest := entries - {k};
      EntryCountMatchesKeys(rest);
      forall v | v in entries.Values ensures v in rest.Values + {entries[k]} {
        var j :| j in entries && entries[j] == v;
        if j != k {
          assert rest[j] == v;
        }
      }
      assert entries.Values == rest.Values + {entries[k]};
      assert entries[k] !in rest.Values;
      assert entries.Keys == rest.Keys + {k};
    }
  }

  class VehicleData {
    const currentTime: real
    const entryFactory: EntryFactory
    var entries: map<VehicleId, Entry>

    /** Every entry is stored under its own vehicle's id, and the factory makes entries for the vehicle it is given. */
    ghost predicate Valid()
      reads this
    {
      KeyedByVehicle(entries) && KeepsVehicle(entryFactory)
    }

    constructor (currentTime: real, vehicles: seq<DvrpVehicle>, entryFactory: EntryFactory)
      requires KeepsVehicle(entryFactory)
      requires DistinctVehicleIds(CreatedEntries(vehicles, entryFactory, currentTime))
      ensures Valid()
      ensures this.currentTime == currentTime && this.entryFactory == entryFactory
      ensures entries == ToMap(CreatedEntries(vehicles, entryFactory, currentTime))
    {
      this.currentTime := currentTime;
      this.entryFactory := entryFactory;
      entries := ToMap(CreatedEntries(vehicles, entryFactory, currentTime));
    }

    /** Rebuilds one vehicle's entry at the snapshot's own time; every other entry stays as it was. */
    method UpdateEntry(vehicle: DvrpVehicle)
      requires Valid()
      modifies this
      ensures Valid()
      ensures entries == Updated(old(entries), vehicle.id, entryFactory(vehicle, currentTime))
    {
      var e := entryFactory(vehicle, currentTime);
      if e.Some? {
        entries := entries[vehicle.id := e.value];
      } else {
        entries := entries - {vehicle.id};
      }
      assert e.Some? ==> e.value.vehicle == vehicle;
      UpdateKeepsKeying(old(entries), vehicle, e);
    }

    /** The entries, as a read-only collection. */
    function GetEntries(): (es: set<Entry>)
      reads this
      requires Valid()
      ensures forall e :: e in es ==> e.vehicle.id in entries && entries[e.vehicle.id] == e
      ensures forall id :: id in entries ==> entries[id] in es
    {
      entries.Values
    }

    function GetSize(): (n: nat)
      reads this
      requires Valid()
      ensures n == |GetEntries()|
    {
      EntryCountMatchesKeys(entries);
      |entries|
    }
  }
}
