/**
 * A freight carrier's service: a value built through a `Builder` with
 * documented defaults, and whose equality and hash code depend on its id only.
 */
module FreightCarrier {
  import opened Wrappers
  import opened JavaInts

  type LinkId = string

  datatype Coord = Coord(x: real, y: real)

  /**
   * A service id. The clustering of services names each new service after its
   * link, its time window and a per-group counter; that name is kept as a
   * structured id rather than as the joined string.
   */
  datatype ServiceId =
    | ServiceId(name: string)
    | ClusterServiceId(link: LinkId, start: real, end: real, counter: nat)

  datatype TimeWindow = TimeWindow(start: real, end: real)

  const DEFAULT_NAME: string := "service"
  const DEFAULT_TIME_WINDOW: TimeWindow := TimeWindow(0.0, INTEGER_MAX_VALUE as real)

  /** `id` and the link may be null (`None`); a service made from a coordinate has no link. */
  datatype CarrierService = CarrierService(
    id: Option<ServiceId>,
    locationId: Option<LinkId>,
    name: string,
    serviceDuration: real,
    timeWindow: TimeWindow,
    demand: Int32,
    coord: Option<Coord>)
  {
    /** `setLinkId`: the same service at another link. */
    function WithLinkId(linkId: Option<LinkId>): (s: CarrierService)
      ensures s.locationId == linkId
      ensures s.id == id && s.name == name && s.serviceDuration == serviceDuration
      ensures s.timeWindow == timeWindow && s.demand == demand && s.coord == coord
    {
      this.(locationId := linkId)
    }

    /** `getFacilityId`: services are not tied to facilities. */
    function FacilityId(): (r: Option<string>)
      ensures r.None?
    {
      None
    }

    /** `equals`: `other` is a service (not null) with the same id, two null ids counting as equal. */
    predicate Equals(other: Option<CarrierService>)
      ensures Equals(other) <==> other.Some? && other.value.id == id
    {
      if other.None? then false
      else if id.None? then other.value.id.None?
      else other.value.id.Some? && id.value == other.value.id.value
    }

    /** `hashCode`: `31 * 1 + hash(id)` in `int` arithmetic, with 0 for a null id. */
    function HashCode(idHash: ServiceId -> int): (h: int)
      ensures IsInt32(h)
    {
      var prime := 31;
      var result := 1;
      ToInt32(prime * result + (if id.None? then 0 else idHash(id.value)))
    }
  }

  /** Equal services hash equally, whatever the hash of ids. */
  lemma EqualServicesHashEqually(a: CarrierService, b: CarrierService, idHash: ServiceId -> int)
    requires a.Equals(Some(b))
    ensures a.HashCode(idHash) == b.HashCode(idHash)
  {
  }

  /** Service equality is an equivalence: reflexive, symmetric and transitive. */
  lemma EqualsIsEquivalence(a: CarrierService, b: CarrierService, c: CarrierService)
    ensures a.Equals(Some(a))
    ensures a.Equals(Some(b)) ==> b.Equals(Some(a))
    ensures a.Equals(Some(b)) && b.Equals(Some(c)) ==> a.Equals(Some(c))
  {
  }

  class Builder {
    var id: Option<ServiceId>
    var locationLinkId: Option<LinkId>
    var coord: Option<Coord>
    var name: string
    var serviceTime: real
    var timeWindow: TimeWindow
    var capacityDemand: Int32

    /** `Builder.newInstance(id, locationLinkId)`: no coordinate, every other field at its default. */
    constructor NewInstance(id: Option<ServiceId>, locationLinkId: Option<LinkId>)
      ensures Build() == CarrierService(id, locationLinkId, DEFAULT_NAME, 0.0, DEFAULT_TIME_WINDOW, 0, None)
    {
      this.id := id;
      this.locationLinkId := locationLinkId;
      this.coord := None;
      this.name := DEFAULT_NAME;
      this.serviceTime := 0.0;
      this.timeWindow := DEFAULT_TIME_WINDOW;
      this.capacityDemand := 0;
    }

    /** `Builder.newInstance(id, coord)`: no link, every other field at its default. */
    constructor NewInstanceAtCoord(id: Option<ServiceId>, coord: Coord)
      ensures Build() == CarrierService(id, None, DEFAULT_NAME, 0.0, DEFAULT_TIME_WINDOW, 0, Some(coord))
    {
      this.id := id;
      this.locationLinkId := None;
      this.coord := Some(coord);
      this.name := DEFAULT_NAME;
      this.serviceTime := 0.0;
      this.timeWindow := DEFAULT_TIME_WINDOW;
      this.capacityDemand := 0;
    }

    /** `build`: a service holding the builder's current settings. */
    function Build(): (s: CarrierService)
      reads this
      ensures s.id == id && s.locationId == locationLinkId && s.coord == coord
      ensures s.name == name && s.serviceDuration == serviceTime
      ensures s.timeWindow == timeWindow && s.demand == capacityDemand
    {
      CarrierService(id, locationLinkId, name, serviceTime, timeWindow, capacityDemand, coord)
    }

    method SetName(name: string) returns (b: Builder)
      modifies this
      ensures b == this
      ensures Build() == old(Build()).(name := name)
    {
      this.name := name;
      b := this;
    }

    method SetServiceDuration(serviceDuration: real) returns (b: Builder)
      modifies this
      ensures b == this
      ensures Build() == old(Build()).(serviceDuration := serviceDuration)
    {
      this.serviceTime := serviceDuration;
      b := this;
    }

    method SetServiceStartTimeWindow(startTimeWindow: TimeWindow) returns (b: Builder)
      modifies this
      ensures b == this
      ensures Build() == old(Build()).(timeWindow := startTimeWindow)
    {
      this.timeWindow := startTimeWindow;
      b := this;
    }

    method SetCapacityDemand(value: Int32) returns (b: Builder)
      modifies this
      ensures b == this
      ensures Build() == old(Build()).(demand := value)
    {
      this.capacityDemand := value;
      b := this;
    }

    method SetLinkId(linkId: Option<LinkId>)
      modifies this
      ensures Build() == old(Build()).(locationId := linkId)
    {
      this.locationLinkId := linkId;
    }
  }
}
