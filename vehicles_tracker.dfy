/**
 * Bookkeeping of vehicles and of the agents riding in them during an
 * evacuation simulation: who drives which vehicle, who rides as a passenger,
 * which vehicles are enroute (and on which link) or parked, and how many seats
 * each vehicle has left, kept up to date from the simulation's events.
 */
module VehiclesTracking {
  import opened Wrappers
  import opened JavaInts

  /** Person, vehicle and link ids. */
  type Id = string

  /** `AtomicInteger.decrementAndGet` and `incrementAndGet`: one step down or up, wrapping around at the ends of `int`. */
  function DecrementAndGet(c: Int32): (r: Int32)
    ensures r as int == ToInt32(c as int - 1)
  {
    if c as int == INTEGER_MIN_VALUE then INTEGER_MAX_VALUE as Int32 else c - 1
  }

  function IncrementAndGet(c: Int32): (r: Int32)
    ensures r as int == ToInt32(c as int + 1)
  {
    if c as int == INTEGER_MAX_VALUE then INTEGER_MIN_VALUE as Int32 else c + 1
  }

  /** A seat taken and given back leaves the counter as it was, even across the wrap-around. */
  lemma IncrementUndoesDecrement(c: Int32)
    ensures IncrementAndGet(DecrementAndGet(c)) == c
  {
  }

  /** `List.remove(Object)`: the list without the first occurrence of `x`, if there is one. */
  function RemoveFirst(l: seq<Id>, x: Id): (r: seq<Id>)
    ensures x !in l ==> r == l
    ensures |r| == if x in l then |l| - 1 else |l|
  {
    if l == [] then []
    else if l[0] == x then l[1..]
    else [l[0]] + RemoveFirst(l[1..], x)
  }

  /** The position of the first occurrence of `x` in `l`. */
  function FirstIndex(l: seq<Id>, x: Id): (i: nat)
    requires x in l
    ensures i < |l| && l[i] == x && x !in l[..i]
  {
    if l[0] == x then 0
    else
      assert x in l[1..] by {
        var k :| 0 <= k < |l| && l[k] == x;
        assert l[1..][k - 1] == x;
      }
      var j := FirstIndex(l[1..], x);
      assert l[..j + 1] == [l[0]] + l[1..][..j];
      j + 1
  }

  /** What `RemoveFirst` removes is the first occurrence, and only it. */
  lemma {:induction false} RemoveFirstRemovesFirstOccurrence(l: seq<Id>, x: Id)
    requires x in l
    ensures RemoveFirst(l, x) == l[..FirstIndex(l, x)] + l[FirstIndex(l, x) + 1..]
  {
    if l[0] == x {
      assert l[..0] == [];
    } else {
      var t := l[1..];
      var j := FirstIndex(t, x);
      RemoveFirstRemovesFirstOccurrence(t, x);
      assert l[..j + 1] == [l[0]] + t[..j];
      assert l[j + 2..] == t[j + 1..];
    }
  }

  /** The ids in a list, as a set. */
  function Members(l: seq<Id>): (m: set<Id>)
    ensures forall q :: q in m <==> q in l
  {
    set q | q in l
  }

  /** Removing what was just appended, and was not there before, gives the list back. */
  lemma {:induction false} RemoveFirstUndoesAppend(l: seq<Id>, x: Id)
    requires x !in l
    ensures RemoveFirst(l + [x], x) == l
  {
    if l != [] {
      assert (l + [x])[1..] == l[1..] + [x];
      RemoveFirstUndoesAppend(l[1..], x);
    }
  }

  /** Every collection of the tracker; an agent is known only by its id. */
  datatype TrackerState = TrackerState(
    driverVehicle: map<Id, Id>,
    vehicleDriver: map<Id, Id>,
    passengerVehicle: map<Id, Id>,
    vehiclePassengers: map<Id, seq<Id>>,
    enrouteVehicles: set<Id>,
    enrouteVehiclesOnLink: map<Id, seq<Id>>,
    parkedVehicles: map<Id, Id>,
    vehicleCapacities: map<Id, Int32>,
    plannedPickupVehicles: map<Id, Id>,
    agents: set<Id>)
  {
    /** `isVehicleEnroute`. */
    predicate IsVehicleEnroute(vehicleId: Id)
      ensures IsVehicleEnroute(vehicleId) <==> vehicleId in enrouteVehicles
    {
      vehicleId in enrouteVehicles
    }

    /** `getEnrouteVehiclesOnLink`: null for a link the tracker does not know. */
    function EnrouteVehiclesOnLink(linkId: Id): (r: Option<seq<Id>>)
      ensures r.Some? <==> linkId in enrouteVehiclesOnLink
      ensures r.Some? ==> r.value == enrouteVehiclesOnLink[linkId]
    {
      if linkId in enrouteVehiclesOnLink then Some(enrouteVehiclesOnLink[linkId]) else None
    }

    /** `getFreeVehicleCapacity`: the vehicle must have a counter. */
    function FreeVehicleCapacity(vehicleId: Id): (c: Int32)
      requires vehicleId in vehicleCapacities
      ensures c == vehicleCapacities[vehicleId]
    {
      vehicleCapacities[vehicleId]
    }

    /** `getVehicleDriverId`: null for a vehicle without a driver. */
    function VehicleDriverId(vehicleId: Id): (r: Option<Id>)
      ensures r.Some? <==> vehicleId in vehicleDriver
      ensures r.Some? ==> r.value == vehicleDriver[vehicleId]
    {
      if vehicleId in vehicleDriver then Some(vehicleDriver[vehicleId]) else None
    }

    /** `getPassengersVehicle`: null for a person who is not a passenger. */
    function PassengersVehicle(passengerId: Id): (r: Option<Id>)
      ensures r.Some? <==> passengerId in passengerVehicle
      ensures r.Some? ==> r.value == passengerVehicle[passengerId]
    {
      if passengerId in passengerVehicle then Some(passengerVehicle[passengerId]) else None
    }

    /**
     * `getVehicleLinkId`: the current link of the vehicle's driver, where
     * `currentLink` says where each agent is; null for a null vehicle id, a
     * vehicle without a driver, or a driver who is not a known agent.
     */
    function VehicleLinkId(vehicleId: Option<Id>, currentLink: Id -> Id): (r: Option<Id>)
      ensures r.Some? <==> vehicleId.Some? && vehicleId.value in vehicleDriver && vehicleDriver[vehicleId.value] in agents
      ensures r.Some? ==> r.value == currentLink(vehicleDriver[vehicleId.value])
    {
      if vehicleId.None? then None
      else if vehicleId.value !in vehicleDriver then None
      else if vehicleDriver[vehicleId.value] !in agents then None
      else Some(currentLink(vehicleDriver[vehicleId.value]))
    }

    /** `getPassengerLinkId`: the link of the vehicle the person rides in. */
    function PassengerLinkId(passengerId: Id, currentLink: Id -> Id): (r: Option<Id>)
      ensures r.Some? <==> && passengerId in passengerVehicle && passengerVehicle[passengerId] in vehicleDriver
                           && vehicleDriver[passengerVehicle[passengerId]] in agents
      ensures r.Some? ==> && passengerId in passengerVehicle && passengerVehicle[passengerId] in vehicleDriver
                          && r.value == currentLink(vehicleDriver[passengerVehicle[passengerId]])
    {
      VehicleLinkId(PassengersVehicle(passengerId), currentLink)
    }
  }

  /** The freshly constructed tracker: every collection empty. */
  const EMPTY: TrackerState := TrackerState(map[], map[], map[], map[], {}, map[], map[], map[], map[], {})

  /** Driver and vehicle maps are mutual inverses. */
  ghost predicate Paired(s: TrackerState) {
    && (forall p :: p in s.driverVehicle ==> s.driverVehicle[p] in s.vehicleDriver && s.vehicleDriver[s.driverVehicle[p]] == p)
    && (forall v :: v in s.vehicleDriver ==> s.vehicleDriver[v] in s.driverVehicle && s.driverVehicle[s.vehicleDriver[v]] == v)
  }

  // ---------------------------------------------------------------------------
  // The event handlers, as transitions of the state
  // ---------------------------------------------------------------------------

  /** `addPassengerToVehicle`: the vehicle must already have a passenger list. */
  function PassengerRegistered(s: TrackerState, passengerId: Id, vehicleId: Id): (t: TrackerState)
    requires vehicleId in s.vehiclePassengers
    ensures t.passengerVehicle == s.passengerVehicle[passengerId := vehicleId]
    ensures t.vehiclePassengers == s.vehiclePassengers[vehicleId := s.vehiclePassengers[vehicleId] + [passengerId]]
    ensures t == s.(passengerVehicle := t.passengerVehicle, vehiclePassengers := t.vehiclePassengers)
  {
    s.(passengerVehicle := s.passengerVehicle[passengerId := vehicleId],
       vehiclePassengers := s.vehiclePassengers[vehicleId := s.vehiclePassengers[vehicleId] + [passengerId]])
  }

  /** `addPlannedPickupVehicle`. */
  function PickupPlanned(s: TrackerState, personId: Id, vehicleId: Id): (t: TrackerState)
    ensures t.plannedPickupVehicles == s.plannedPickupVehicles[personId := vehicleId]
    ensures t == s.(plannedPickupVehicles := t.plannedPickupVehicles)
  {
    s.(plannedPickupVehicles := s.plannedPickupVehicles[personId := vehicleId])
  }

  /**
   * What the enter event needs to run without a null dereference: a capacity
   * counter for the vehicle; for a driver, a known agent standing on a known
   * link; for a passenger, a passenger list of the vehicle.
   */
  ghost predicate CanEnter(s: TrackerState, personId: Id, vehicleId: Id, currentLink: Id -> Id) {
    && vehicleId in s.vehicleCapacities
    && (personId !in s.passengerVehicle ==> personId in s.agents && currentLink(personId) in s.enrouteVehiclesOnLink)
    && (personId in s.passengerVehicle ==> vehicleId in s.vehiclePassengers)
  }

  /**
   * `handleEvent(PersonEntersVehicleEvent)`: a seat is taken; a person not
   * registered as a passenger becomes the vehicle's driver, and the vehicle
   * leaves the parked vehicles for the enroute ones, on the driver's link.
   */
  function Enter(s: TrackerState, personId: Id, vehicleId: Id, currentLink: Id -> Id): (t: TrackerState)
    requires CanEnter(s, personId, vehicleId, currentLink)
    ensures t.vehicleCapacities == s.vehicleCapacities[vehicleId := DecrementAndGet(s.vehicleCapacities[vehicleId])]
    ensures personId in s.passengerVehicle ==> t == s.(vehicleCapacities := t.vehicleCapacities)
    ensures personId !in s.passengerVehicle ==>
              && t.driverVehicle == s.driverVehicle[personId := vehicleId]
              && t.vehicleDriver == s.vehicleDriver[vehicleId := personId]
              && t.enrouteVehicles == s.enrouteVehicles + {vehicleId}
              && t.parkedVehicles == s.parkedVehicles - {vehicleId}
              && var link := currentLink(personId);
                 t.enrouteVehiclesOnLink == s.enrouteVehiclesOnLink[link := s.enrouteVehiclesOnLink[link] + [vehicleId]]
    ensures t.passengerVehicle == s.passengerVehicle && t.vehiclePassengers == s.vehiclePassengers
    ensures t.plannedPickupVehicles == s.plannedPickupVehicles && t.agents == s.agents
  {
    var s1 := s.(vehicleCapacities := s.vehicleCapacities[vehicleId := DecrementAndGet(s.vehicleCapacities[vehicleId])]);
    if personId in s.passengerVehicle then s1
    else
      var link := currentLink(personId);
      s1.(driverVehicle := s.driverVehicle[personId := vehicleId],
          vehicleDriver := s.vehicleDriver[vehicleId := personId],
          enrouteVehicles := s.enrouteVehicles + {vehicleId},
          parkedVehicles := s.parkedVehicles - {vehicleId},
          enrouteVehiclesOnLink := s.enrouteVehiclesOnLink[link := s.enrouteVehiclesOnLink[link] + [vehicleId]])
  }

  /** What the leave event needs: a capacity counter; for a driver, a known agent on a known link. */
  ghost predicate CanLeave(s: TrackerState, personId: Id, vehicleId: Id, currentLink: Id -> Id) {
    && vehicleId in s.vehicleCapacities
    && (personId in s.driverVehicle ==> personId in s.agents && currentLink(personId) in s.enrouteVehiclesOnLink)
  }

  /**
   * `handleEvent(PersonLeavesVehicleEvent)`: a seat is given back; when a
   * driver leaves, the vehicle is no longer enroute, leaves its link's list
   * and is parked at that link.
   */
  function Leave(s: TrackerState, personId: Id, vehicleId: Id, currentLink: Id -> Id): (t: TrackerState)
    requires CanLeave(s, personId, vehicleId, currentLink)
    ensures t.vehicleCapacities == s.vehicleCapacities[vehicleId := IncrementAndGet(s.vehicleCapacities[vehicleId])]
    ensures personId !in s.driverVehicle ==> t == s.(vehicleCapacities := t.vehicleCapacities)
    ensures personId in s.driverVehicle ==>
              && var link := currentLink(personId);
              && t.enrouteVehicles == s.enrouteVehicles - {vehicleId}
              && t.parkedVehicles == s.parkedVehicles[vehicleId := link]
              && t.enrouteVehiclesOnLink == s.enrouteVehiclesOnLink[link := RemoveFirst(s.enrouteVehiclesOnLink[link], vehicleId)]
    ensures t.driverVehicle == s.driverVehicle && t.vehicleDriver == s.vehicleDriver
    ensures t.passengerVehicle == s.passengerVehicle && t.vehiclePassengers == s.vehiclePassengers
    ensures t.plannedPickupVehicles == s.plannedPickupVehicles && t.agents == s.agents
  {
    var s1 := s.(vehicleCapacities := s.vehicleCapacities[vehicleId := IncrementAndGet(s.vehicleCapacities[vehicleId])]);
    if personId !in s.driverVehicle then s1
    else
      var link := currentLink(personId);
      s1.(enrouteVehicles := s.enrouteVehicles - {vehicleId},
          parkedVehicles := s.parkedVehicles[vehicleId := link],
          enrouteVehiclesOnLink := s.enrouteVehiclesOnLink[link := RemoveFirst(s.enrouteVehiclesOnLink[link], vehicleId)])
  }

  /** The passengers of the vehicle `personId` drives, if any; each of them is handed back to the simulation on arrival. */
  ghost predicate CanArrive(s: TrackerState, personId: Id) {
    personId in s.driverVehicle && s.driverVehicle[personId] in s.vehiclePassengers ==>
      forall q :: q in s.vehiclePassengers[s.driverVehicle[personId]] ==> q in s.agents
  }

  /**
   * `handleEvent(AgentArrivalEvent)`: a driver's arrival ends the pairing with
   * the vehicle, and its passengers stop being passengers.
   */
  function Arrival(s: TrackerState, personId: Id): (t: TrackerState)
    requires CanArrive(s, personId)
    ensures t.driverVehicle == s.driverVehicle - {personId}
    ensures personId !in s.driverVehicle ==> t == s
    ensures personId in s.driverVehicle ==>
              && var vehicleId := s.driverVehicle[personId];
              && t.vehicleDriver == s.vehicleDriver - {vehicleId}
              && (vehicleId in s.vehiclePassengers ==>
                    && t.passengerVehicle == s.passengerVehicle - Members(s.vehiclePassengers[vehicleId])
                    && t.vehiclePassengers == s.vehiclePassengers[vehicleId := []])
              && (vehicleId !in s.vehiclePassengers ==>
                    t.passengerVehicle == s.passengerVehicle && t.vehiclePassengers == s.vehiclePassengers)
    ensures t.enrouteVehicles == s.enrouteVehicles && t.enrouteVehiclesOnLink == s.enrouteVehiclesOnLink
    ensures t.parkedVehicles == s.parkedVehicles && t.vehicleCapacities == s.vehicleCapacities
    ensures t.plannedPickupVehicles == s.plannedPickupVehicles && t.agents == s.agents
  {
    if personId !in s.driverVehicle then s
    else
      var vehicleId := s.driverVehicle[personId];
      var s1 := s.(driverVehicle := s.driverVehicle - {personId}, vehicleDriver := s.vehicleDriver - {vehicleId});
      if vehicleId !in s.vehiclePassengers then s1
      else
        var passengers := s.vehiclePassengers[vehicleId];
        s1.(passengerVehicle := s.passengerVehicle - Members(passengers),
            vehiclePassengers := s.vehiclePassengers[vehicleId := []])
  }

  /** `handleEvent(LinkEnterEvent)`: a driver's vehicle joins the link's list; the link must be known. */
  function LinkEnter(s: TrackerState, personId: Id, linkId: Id, vehicleId: Id): (t: TrackerState)
    requires personId in s.driverVehicle ==> linkId in s.enrouteVehiclesOnLink
    ensures personId !in s.driverVehicle ==> t == s
    ensures personId in s.driverVehicle ==>
              t == s.(enrouteVehiclesOnLink := s.enrouteVehiclesOnLink[linkId := s.enrouteVehiclesOnLink[linkId] + [vehicleId]])
  {
    if personId !in s.driverVehicle then s
    else s.(enrouteVehiclesOnLink := s.enrouteVehiclesOnLink[linkId := s.enrouteVehiclesOnLink[linkId] + [vehicleId]])
  }

  /** `handleEvent(LinkLeaveEvent)`: a driver's vehicle leaves the link's list; the link must be known. */
  function LinkLeave(s: TrackerState, personId: Id, linkId: Id, vehicleId: Id): (t: TrackerState)
    requires personId in s.driverVehicle ==> linkId in s.enrouteVehiclesOnLink
    ensures personId !in s.driverVehicle ==> t == s
    ensures personId in s.driverVehicle ==>
              t == s.(enrouteVehiclesOnLink := s.enrouteVehiclesOnLink[linkId := RemoveFirst(s.enrouteVehiclesOnLink[linkId], vehicleId)])
  {
    if personId !in s.driverVehicle then s
    else s.(enrouteVehiclesOnLink := s.enrouteVehiclesOnLink[linkId := RemoveFirst(s.enrouteVehiclesOnLink[linkId], vehicleId)])
  }

  /** `reset`: every collection emptied except the capacity counters and the agents. */
  function Cleared(s: TrackerState): (t: TrackerState)
    ensures t == EMPTY.(vehicleCapacities := s.vehicleCapacities, agents := s.agents)
  {
    TrackerState(map[], map[], map[], map[], {}, map[], map[], s.vehicleCapacities, map[], s.agents)
  }

  // ---------------------------------------------------------------------------
  // Properties of the transitions
  // ---------------------------------------------------------------------------

  /** A person who enters and then leaves a vehicle gives the seat back: the counters are as before. */
  lemma EnterThenLeaveRestoresCapacity(s: TrackerState, personId: Id, vehicleId: Id, currentLink: Id -> Id)
    requires CanEnter(s, personId, vehicleId, currentLink)
    requires CanLeave(Enter(s, personId, vehicleId, currentLink), personId, vehicleId, currentLink)
    ensures Leave(Enter(s, personId, vehicleId, currentLink), personId, vehicleId, currentLink).vehicleCapacities
         == s.vehicleCapacities
  {
    var c := s.vehicleCapacities[vehicleId];
    IncrementUndoesDecrement(c);
    assert s.vehicleCapacities[vehicleId := DecrementAndGet(c)][vehicleId := c] == s.vehicleCapacities;
  }

  /** A driver who enters and then leaves on the same link parks the vehicle there, still paired with it. */
  lemma DriverEnterThenLeaveParks(s: TrackerState, personId: Id, vehicleId: Id, currentLink: Id -> Id)
    requires CanEnter(s, personId, vehicleId, currentLink)
    requires personId !in s.passengerVehicle
    ensures var t := Leave(Enter(s, personId, vehicleId, currentLink), personId, vehicleId, currentLink);
      && t.enrouteVehicles == s.enrouteVehicles - {vehicleId}
      && t.parkedVehicles == s.parkedVehicles[vehicleId := currentLink(personId)]
      && t.driverVehicle == s.driverVehicle[personId := vehicleId]
      && t.vehicleDriver == s.vehicleDriver[vehicleId := personId]
  {
    var e := Enter(s, personId, vehicleId, currentLink);
    assert personId in e.driverVehicle;
  }

  /** A driver who enters and then leaves on the same link leaves that link's list as it was. */
  lemma DriverEnterThenLeaveKeepsLinkLists(s: TrackerState, personId: Id, vehicleId: Id, currentLink: Id -> Id)
    requires CanEnter(s, personId, vehicleId, currentLink)
    requires personId !in s.passengerVehicle
    requires vehicleId !in s.enrouteVehiclesOnLink[currentLink(personId)]
    ensures Leave(Enter(s, personId, vehicleId, currentLink), personId, vehicleId, currentLink).enrouteVehiclesOnLink
         == s.enrouteVehiclesOnLink
  {
    var link := currentLink(personId);
    var onLink := s.enrouteVehiclesOnLink[link];
    var e := Enter(s, personId, vehicleId, currentLink);
    assert personId in e.driverVehicle;
    RemoveFirstUndoesAppend(onLink, vehicleId);
    assert s.enrouteVehiclesOnLink[link := onLink + [vehicleId]][link := onLink] == s.enrouteVehiclesOnLink;
  }

  /** A registered passenger who enters takes a seat and changes nothing else: it does not become a driver. */
  lemma RegisteredPassengerEnters(s: TrackerState, passengerId: Id, vehicleId: Id, currentLink: Id -> Id)
    requires vehicleId in s.vehiclePassengers && vehicleId in s.vehicleCapacities
    ensures var t := PassengerRegistered(s, passengerId, vehicleId);
      && CanEnter(t, passengerId, vehicleId, currentLink)
      && var u := Enter(t, passengerId, vehicleId, currentLink);
      && u.driverVehicle == s.driverVehicle && u.vehicleDriver == s.vehicleDriver
      && u.enrouteVehicles == s.enrouteVehicles && u.parkedVehicles == s.parkedVehicles
      && u.enrouteVehiclesOnLink == s.enrouteVehiclesOnLink
      && u.PassengersVehicle(passengerId) == Some(vehicleId)
      && passengerId in u.vehiclePassengers[vehicleId]
  {
  }

  /** A driver's position is the vehicle's: once a person enters as driver, the vehicle is found on that person's link. */
  lemma EnteredVehicleIsOnDriversLink(s: TrackerState, personId: Id, vehicleId: Id, currentLink: Id -> Id)
    requires CanEnter(s, personId, vehicleId, currentLink)
    requires personId !in s.passengerVehicle
    ensures var t := Enter(s, personId, vehicleId, currentLink);
      && t.VehicleLinkId(Some(vehicleId), currentLink) == Some(currentLink(personId))
      && t.VehicleDriverId(vehicleId) == Some(personId)
      && t.IsVehicleEnroute(vehicleId)
      && vehicleId !in t.parkedVehicles
  {
  }

  /** A passenger is found where the vehicle's driver is. */
  lemma PassengerIsOnVehiclesLink(s: TrackerState, passengerId: Id, vehicleId: Id, currentLink: Id -> Id)
    requires vehicleId in s.vehiclePassengers
    ensures PassengerRegistered(s, passengerId, vehicleId).PassengerLinkId(passengerId, currentLink)
         == s.VehicleLinkId(Some(vehicleId), currentLink)
  {
  }

  /** Entering keeps driver and vehicle maps inverse, as long as neither the person nor the vehicle is paired with another. */
  lemma EnterKeepsPairing(s: TrackerState, personId: Id, vehicleId: Id, currentLink: Id -> Id)
    requires Paired(s)
    requires CanEnter(s, personId, vehicleId, currentLink)
    requires personId in s.driverVehicle ==> s.driverVehicle[personId] == vehicleId
    requires vehicleId in s.vehicleDriver ==> s.vehicleDriver[vehicleId] == personId
    ensures Paired(Enter(s, personId, vehicleId, currentLink))
  {
  }

  /** Arrival ends a pairing on both sides, so the driver and vehicle maps stay inverse. */
  lemma {:induction false} ArrivalKeepsPairing(s: TrackerState, personId: Id)
    requires Paired(s)
    requires CanArrive(s, personId)
    ensures Paired(Arrival(s, personId))
  {
    var t := Arrival(s, personId);
    if personId in s.driverVehicle {
      var vehicleId := s.driverVehicle[personId];
      forall p | p in t.driverVehicle
        ensures t.driverVehicle[p] in t.vehicleDriver && t.vehicleDriver[t.driverVehicle[p]] == p
      {
        assert s.vehicleDriver[s.driverVehicle[p]] == p;
        assert s.driverVehicle[p] != vehicleId;
      }
      forall v | v in t.vehicleDriver
        ensures t.vehicleDriver[v] in t.driverVehicle && t.driverVehicle[t.vehicleDriver[v]] == v
      {
        assert s.driverVehicle[s.vehicleDriver[v]] == v;
        assert s.vehicleDriver[v] != personId;
      }
    }
  }

  /** A driver's arrival releases the vehicle and all its passengers. */
  lemma ArrivalReleasesVehicle(s: TrackerState, personId: Id, currentLink: Id -> Id)
    requires CanArrive(s, personId)
    requires personId in s.driverVehicle && s.driverVehicle[personId] in s.vehiclePassengers
    ensures var vehicleId := s.driverVehicle[personId];
      var t := Arrival(s, personId);
      && t.VehicleDriverId(vehicleId).None?
      && t.VehicleLinkId(Some(vehicleId), currentLink).None?
      && (forall q :: q in s.vehiclePassengers[vehicleId] ==> t.PassengersVehicle(q).None?)
      && t.vehiclePassengers[vehicleId] == []
  {
  }

  /** Link events of a person who drives nothing change nothing. */
  lemma NonDriverLinkEventsChangeNothing(s: TrackerState, personId: Id, linkId: Id, vehicleId: Id)
    requires personId !in s.driverVehicle
    ensures LinkEnter(s, personId, linkId, vehicleId) == s
    ensures LinkLeave(s, personId, linkId, vehicleId) == s
  {
  }

  /** A vehicle that enters a link and leaves it again, and was not on it before, leaves the link's list as it was. */
  lemma LinkEnterThenLeave(s: TrackerState, personId: Id, linkId: Id, vehicleId: Id)
    requires personId in s.driverVehicle && linkId in s.enrouteVehiclesOnLink
    requires vehicleId !in s.enrouteVehiclesOnLink[linkId]
    ensures LinkLeave(LinkEnter(s, personId, linkId, vehicleId), personId, linkId, vehicleId) == s
  {
    RemoveFirstUndoesAppend(s.enrouteVehiclesOnLink[linkId], vehicleId);
    assert s.enrouteVehiclesOnLink[linkId := s.enrouteVehiclesOnLink[linkId]] == s.enrouteVehiclesOnLink;
  }

  /**
   * After `reset` nobody drives or rides and no vehicle is enroute or parked,
   * while the capacities and the agents survive; resetting twice is resetting once.
   */
  lemma ResetForgetsTrips(s: TrackerState, vehicleId: Id, personId: Id, currentLink: Id -> Id)
    ensures var t := Cleared(s);
      && Paired(t)
      && t.VehicleDriverId(vehicleId).None? && t.PassengersVehicle(personId).None?
      && t.VehicleLinkId(Some(vehicleId), currentLink).None?
      && !t.IsVehicleEnroute(vehicleId) && vehicleId !in t.parkedVehicles
      && t.vehicleCapacities == s.vehicleCapacities && t.agents == s.agents
      && Cleared(t) == t
  {
  }

  // ---------------------------------------------------------------------------
  // The tracker object
  // ---------------------------------------------------------------------------

  class VehiclesTracker {
    var driverVehicleMap: map<Id, Id>
    var vehicleDriverMap: map<Id, Id>
    var passengerVehicleMap: map<Id, Id>
    var vehiclePassengerMap: map<Id, seq<Id>>
    var enrouteVehicles: set<Id>
    var enrouteVehiclesOnLink: map<Id, seq<Id>>
    var parkedVehicles: map<Id, Id>
    var vehicleCapacities: map<Id, Int32>
    var plannedPickupVehicles: map<Id, Id>
    var agents: set<Id>

    function State(): TrackerState
      reads this
    {
      TrackerState(driverVehicleMap, vehicleDriverMap, passengerVehicleMap, vehiclePassengerMap, enrouteVehicles,
                   enrouteVehiclesOnLink, parkedVehicles, vehicleCapacities, plannedPickupVehicles, agents)
    }

    constructor ()
      ensures State() == EMPTY
    {
      driverVehicleMap := map[];
      vehicleDriverMap := map[];
      passengerVehicleMap := map[];
      vehiclePassengerMap := map[];
      enrouteVehicles := {};
      enrouteVehiclesOnLink := map[];
      parkedVehicles := map[];
      vehicleCapacities := map[];
      plannedPickupVehicles := map[];
      agents := {};
    }

    method AddPlannedPickupVehicle(personId: Id, vehicleId: Id)
      modifies this
      ensures State() == PickupPlanned(old(State()), personId, vehicleId)
    {
      plannedPickupVehicles := plannedPickupVehicles[personId := vehicleId];
    }

    method AddPassengerToVehicle(passengerId: Id, vehicleId: Id)
      requires vehicleId in vehiclePassengerMap
      modifies this
      ensures State() == PassengerRegistered(old(State()), passengerId, vehicleId)
    {
      passengerVehicleMap := passengerVehicleMap[passengerId := vehicleId];
      vehiclePassengerMap := vehiclePassengerMap[vehicleId := vehiclePassengerMap[vehicleId] + [passengerId]];
    }

    method HandlePersonEntersVehicle(personId: Id, vehicleId: Id, currentLink: Id -> Id)
      requires CanEnter(State(), personId, vehicleId, currentLink)
      modifies this
      ensures State() == Enter(old(State()), personId, vehicleId, currentLink)
    {
      vehicleCapacities := vehicleCapacities[vehicleId := DecrementAndGet(vehicleCapacities[vehicleId])];
      var isPassenger := personId in passengerVehicleMap;
      if !isPassenger {
        driverVehicleMap := driverVehicleMap[personId := vehicleId];
        vehicleDriverMap := vehicleDriverMap[vehicleId := personId];
        enrouteVehicles := enrouteVehicles + {vehicleId};
        parkedVehicles := parkedVehicles - {vehicleId};
        var linkId := currentLink(personId);
        enrouteVehiclesOnLink := enrouteVehiclesOnLink[linkId := enrouteVehiclesOnLink[linkId] + [vehicleId]];
      }
    }

    method HandlePersonLeavesVehicle(personId: Id, vehicleId: Id, currentLink: Id -> Id)
      requires CanLeave(State(), personId, vehicleId, currentLink)
      modifies this
      ensures State() == Leave(old(State()), personId, vehicleId, currentLink)
    {
      vehicleCapacities := vehicleCapacities[vehicleId := IncrementAndGet(vehicleCapacities[vehicleId])];
      var isDriver := personId in driverVehicleMap;
      if isDriver {
        var linkId := currentLink(personId);
        enrouteVehicles := enrouteVehicles - {vehicleId};
        parkedVehicles := parkedVehicles[vehicleId := linkId];
        enrouteVehiclesOnLink := enrouteVehiclesOnLink[linkId := RemoveFirst(enrouteVehiclesOnLink[linkId], vehicleId)];
      }
    }

    method HandleAgentArrival(personId: Id)
      requires CanArrive(State(), personId)
      modifies this
      ensures State() == Arrival(old(State()), personId)
    {
      var vehicleId: Option<Id> := if personId in driverVehicleMap then Some(driverVehicleMap[personId]) else None;
      driverVehicleMap := driverVehicleMap - {personId};
      if vehicleId.Some? {
        vehicleDriverMap := vehicleDriverMap - {vehicleId.value};
        if vehicleId.value in vehiclePassengerMap {
          var passengers := vehiclePassengerMap[vehicleId.value];
          var stillPassengers := passengerVehicleMap;
          for i := 0 to |passengers|
            invariant stillPassengers == passengerVehicleMap - Members(passengers[..i])
          {
            assert passengers[..i + 1] == passengers[..i] + [passengers[i]];
            stillPassengers := stillPassengers - {passengers[i]};
          }
          assert passengers[..|passengers|] == passengers;
          passengerVehicleMap := stillPassengers;
          vehiclePassengerMap := vehiclePassengerMap[vehicleId.value := []];
        }
      }
    }

    method HandleLinkEnter(personId: Id, linkId: Id, vehicleId: Id)
      requires personId in driverVehicleMap ==> linkId in enrouteVehiclesOnLink
      modifies this
      ensures State() == LinkEnter(old(State()), personId, linkId, vehicleId)
    {
      var isDriver := personId in driverVehicleMap;
      if isDriver {
        enrouteVehiclesOnLink := enrouteVehiclesOnLink[linkId := enrouteVehiclesOnLink[linkId] + [vehicleId]];
      }
    }

    method HandleLinkLeave(personId: Id, linkId: Id, vehicleId: Id)
      requires personId in driverVehicleMap ==> linkId in enrouteVehiclesOnLink
      modifies this
      ensures State() == LinkLeave(old(State()), personId, linkId, vehicleId)
    {
      var isDriver := personId in driverVehicleMap;
      if isDriver {
        enrouteVehiclesOnLink := enrouteVehiclesOnLink[linkId := RemoveFirst(enrouteVehiclesOnLink[linkId], vehicleId)];
      }
    }

    method Reset(iteration: int)
      modifies this
      ensures State() == Cleared(old(State()))
    {
      driverVehicleMap := map[];
      passengerVehicleMap := map[];
      vehicleDriverMap := map[];
      vehiclePassengerMap := map[];
      enrouteVehicles := {};
      enrouteVehiclesOnLink := map[];
      parkedVehicles := map[];
      plannedPickupVehicles := map[];
    }
  }
}
