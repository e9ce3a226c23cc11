/**
 * Clustering of a carrier's services: services on the same link with the same
 * start time window are merged, greedily and in order, into new services whose
 * summed capacity demand stays within a cap, unless a single service alone
 * exceeds it.
 */
module ClusterServices {
  import opened Wrappers
  import opened FreightCarrier
  import opened JavaInts

  class Carrier {
    var services: map<ServiceId, CarrierService>

    constructor (services: map<ServiceId, CarrierService>)
      ensures this.services == services
    {
      this.services := services;
    }
  }

  // ---------------------------------------------------------------------------
  // The carrier's service map as a sequence of `put`s and `remove`s
  // ---------------------------------------------------------------------------

  datatype MapOp =
    | Put(key: ServiceId, service: CarrierService)
    | Remove(id: Option<ServiceId>)   // `remove(null)` finds nothing to remove

  function Step(m: map<ServiceId, CarrierService>, op: MapOp): map<ServiceId, CarrierService> {
    match op
    case Put(k, s) => m[k := s]
    case Remove(id) => if id.Some? then m - {id.value} else m
  }

  /** The map after the operations, in order. */
  function Apply(m: map<ServiceId, CarrierService>, ops: seq<MapOp>): map<ServiceId, CarrierService> {
    if ops == [] then m else Step(Apply(m, ops[..|ops| - 1]), ops[|ops| - 1])
  }

  /** What the operations put, the last put of a key winning. */
  function PutsOf(ops: seq<MapOp>): map<ServiceId, CarrierService> {
    if ops == [] then map[]
    else
      var last := ops[|ops| - 1];
      var rest := PutsOf(ops[..|ops| - 1]);
      if last.Put? then rest[last.key := last.service] else rest
  }

  /** The keys the operations remove. */
  function RemovedKeys(ops: seq<MapOp>): set<ServiceId> {
    if ops == [] then {}
    else
      var last := ops[|ops| - 1];
      var rest := RemovedKeys(ops[..|ops| - 1]);
      if last.Remove? && last.id.Some? then rest + {last.id.value} else rest
  }

  lemma ApplyAppendOne(m: map<ServiceId, CarrierService>, ops: seq<MapOp>, op: MapOp)
    ensures Apply(m, ops + [op]) == Step(Apply(m, ops), op)
  {
    assert (ops + [op])[..|ops|] == ops;
  }

  lemma {:induction false} ApplyConcat(m: map<ServiceId, CarrierService>, a: seq<MapOp>, b: seq<MapOp>)
    ensures Apply(m, a + b) == Apply(Apply(m, a), b)
    decreases |b|
  {
    if b == [] {
      assert a + b == a;
    } else {
      var init := b[..|b| - 1];
      assert (a + b)[..|a + b| - 1] == a + init;
      ApplyConcat(m, a, init);
    }
  }

  lemma {:induction false} PutsAndRemovalsOfAppend(a: seq<MapOp>, b: seq<MapOp>)
    ensures PutsOf(a + b) == PutsOf(a) + PutsOf(b)
    ensures RemovedKeys(a + b) == RemovedKeys(a) + RemovedKeys(b)
    decreases |b|
  {
    if b != [] {
      var init := b[..|b| - 1];
      assert (a + b)[..|a + b| - 1] == a + init;
      PutsAndRemovalsOfAppend(a, init);
    } else {
      assert a + b == a;
    }
  }

  /**
   * When no key is both put and removed, the order of the operations does not
   * matter: the result is the map without the removed keys, plus the puts.
   */
  lemma {:induction false} ApplyWithoutConflicts(m: map<ServiceId, CarrierService>, ops: seq<MapOp>)
    requires PutsOf(ops).Keys !! RemovedKeys(ops)
    ensures Apply(m, ops) == (m - RemovedKeys(ops)) + PutsOf(ops)
  {
    if ops != [] {
      var init := ops[..|ops| - 1];
      var last := ops[|ops| - 1];
      assert init + [last] == ops;
      PutsAndRemovalsOfAppend(init, [last]);
      assert PutsOf([last]) == if last.Put? then map[last.key := last.service] else map[];
      assert RemovedKeys([last]) == if last.Remove? && last.id.Some? then {last.id.value} else {};
      ApplyWithoutConflicts(m, init);
    }
  }

  // ---------------------------------------------------------------------------
  // Greedy clusters of one (link, time window) group
  // ---------------------------------------------------------------------------

  /** The exact total capacity demand of a cluster. */
  function Demand(c: seq<CarrierService>): int {
    if c == [] then 0 else Demand(c[..|c| - 1]) + c[|c| - 1].demand as int
  }

  /** The running `capDemand` of a cluster: its demands summed in Java's `int` arithmetic. */
  function CapDemand(c: seq<CarrierService>): Int32 {
    if c == [] then 0 else AddInt32(CapDemand(c[..|c| - 1]), c[|c| - 1].demand)
  }

  /**
   * The running sum is the cluster's exact total demand wrapped to 32 bits:
   * the two agree modulo 2^32, and are equal whenever the total fits into an `int`.
   */
  lemma {:induction false} CapDemandIsWrappedTotal(c: seq<CarrierService>)
    ensures CapDemand(c) as int == ToInt32(Demand(c))
    ensures (CapDemand(c) as int - Demand(c)) % 0x1_0000_0000 == 0
    ensures IsInt32(Demand(c)) ==> CapDemand(c) as int == Demand(c)
    decreases |c|
  {
    if c != [] {
      var init := c[..|c| - 1];
      var d := c[|c| - 1].demand;
      CapDemandIsWrappedTotal(init);
      AddInt32IsWrappedSum(CapDemand(init), d);
      ToInt32OfSum(Demand(init), d as int);
    }
  }

  /** The test `capDemand + service.getCapacityDemand() > maxCapDemandPerService`, in `int` arithmetic. */
  predicate Overflows(current: seq<CarrierService>, s: CarrierService, maxCap: int) {
    AddInt32(CapDemand(current), s.demand) as int > maxCap
  }

  function Duration(c: seq<CarrierService>): real {
    if c == [] then 0.0 else Duration(c[..|c| - 1]) + c[|c| - 1].serviceDuration
  }

  lemma {:induction false} DemandAndDurationOfAppend(a: seq<CarrierService>, b: seq<CarrierService>)
    ensures Demand(a + b) == Demand(a) + Demand(b)
    ensures Duration(a + b) == Duration(a) + Duration(b)
    decreases |b|
  {
    if b != [] {
      assert (a + b)[..|a + b| - 1] == a + b[..|b| - 1];
      DemandAndDurationOfAppend(a, b[..|b| - 1]);
    } else {
      assert a + b == a;
    }
  }

  /**
   * The clusters still to be closed when `current` is the open cluster and
   * `rest` the services not yet visited: a service that would push the open
   * cluster past the cap closes it and opens a new one of its own.
   */
  function ClustersFrom(current: seq<CarrierService>, rest: seq<CarrierService>, maxCap: int): seq<seq<CarrierService>>
    decreases |rest|
  {
    if rest == [] then [current]
    else if Overflows(current, rest[0], maxCap) then [current] + ClustersFrom([rest[0]], rest[1..], maxCap)
    else ClustersFrom(current + [rest[0]], rest[1..], maxCap)
  }

  /** The clusters of a group, in creation order; the first one starts empty. */
  function Clusters(group: seq<CarrierService>, maxCap: int): seq<seq<CarrierService>> {
    ClustersFrom([], group, maxCap)
  }

  function Flatten(cs: seq<seq<CarrierService>>): seq<CarrierService> {
    if cs == [] then [] else cs[0] + Flatten(cs[1..])
  }

  function TotalDemand(cs: seq<seq<CarrierService>>): int {
    if cs == [] then 0 else Demand(cs[0]) + TotalDemand(cs[1..])
  }

  function TotalDuration(cs: seq<seq<CarrierService>>): real {
    if cs == [] then 0.0 else Duration(cs[0]) + TotalDuration(cs[1..])
  }

  lemma {:induction false} ClustersFromCoverInOrder(current: seq<CarrierService>, rest: seq<CarrierService>, maxCap: int)
    ensures Flatten(ClustersFrom(current, rest, maxCap)) == current + rest
    ensures TotalDemand(ClustersFrom(current, rest, maxCap)) == Demand(current) + Demand(rest)
    ensures TotalDuration(ClustersFrom(current, rest, maxCap)) == Duration(current) + Duration(rest)
    decreases |rest|
  {
    if rest != [] {
      var s := rest[0];
      DemandAndDurationOfAppend([s], rest[1..]);
      assert [s] + rest[1..] == rest;
      assert Demand([s]) == s.demand as int && Duration([s]) == s.serviceDuration by {
        assert [s][..0] == [];
      }
      if Overflows(current, s, maxCap) {
        var tail := ClustersFrom([s], rest[1..], maxCap);
        ClustersFromCoverInOrder([s], rest[1..], maxCap);
        assert ([current] + tail)[1..] == tail;
      } else {
        ClustersFromCoverInOrder(current + [s], rest[1..], maxCap);
        DemandAndDurationOfAppend(current, [s]);
        assert current + [s] + rest[1..] == current + rest;
      }
    }
  }

  /**
   * Clustering loses nothing: the clusters, one after the other, are the
   * group's services in their order, so the total capacity demand and the
   * total duration of the clusters are those of the group.
   */
  lemma ClustersConserveGroup(group: seq<CarrierService>, maxCap: int)
    ensures Flatten(Clusters(group, maxCap)) == group
    ensures TotalDemand(Clusters(group, maxCap)) == Demand(group)
    ensures TotalDuration(Clusters(group, maxCap)) == Duration(group)
  {
    ClustersFromCoverInOrder([], group, maxCap);
  }

  /** No service after the first of a cluster made the running sum overflow the cap when it joined. */
  ghost predicate JoinedWithinCap(c: seq<CarrierService>, maxCap: int) {
    forall k :: 0 < k < |c| ==> !Overflows(c[..k], c[k], maxCap)
  }

  lemma JoinedWithinCapExtend(current: seq<CarrierService>, s: CarrierService, maxCap: int)
    requires JoinedWithinCap(current, maxCap) && !Overflows(current, s, maxCap)
    ensures JoinedWithinCap(current + [s], maxCap)
  {
    var next := current + [s];
    forall k | 0 < k < |next| ensures !Overflows(next[..k], next[k], maxCap) {
      if k < |current| {
        assert next[..k] == current[..k];
      } else {
        assert next[..k] == current;
      }
    }
  }

  /**
   * Clusters as the greedy split leaves them: later clusters are non-empty,
   * every service joined its cluster within the cap, and each cluster was
   * closed because the next cluster's first service overflowed it.
   */
  ghost predicate GreedyShape(cs: seq<seq<CarrierService>>, maxCap: int) {
    && |cs| >= 1
    && (forall i :: 1 <= i < |cs| ==> cs[i] != [])
    && (forall i :: 0 <= i < |cs| ==> JoinedWithinCap(cs[i], maxCap))
    && (forall i, j :: 0 <= i && j == i + 1 && j < |cs| ==> Overflows(cs[i], cs[j][0], maxCap))
  }

  /** Closing a cluster in front of a greedy split, because the split's first service overflows it. */
  lemma GreedyShapeCons(c: seq<CarrierService>, tail: seq<seq<CarrierService>>, maxCap: int)
    requires JoinedWithinCap(c, maxCap) && GreedyShape(tail, maxCap)
    requires tail[0] != [] && Overflows(c, tail[0][0], maxCap)
    ensures GreedyShape([c] + tail, maxCap)
  {
    var cs := [c] + tail;
    assert forall i :: 1 <= i < |cs| ==> cs[i] == tail[i - 1];
  }

  lemma {:induction false} ClustersFromShape(current: seq<CarrierService>, rest: seq<CarrierService>, maxCap: int)
    requires JoinedWithinCap(current, maxCap)
    ensures var cs := ClustersFrom(current, rest, maxCap);
      && GreedyShape(cs, maxCap)
      && |cs[0]| >= |current| && cs[0][..|current|] == current
      && (rest != [] && Overflows(current, rest[0], maxCap) ==> cs[0] == current)
    decreases |rest|
  {
    if rest != [] {
      var s := rest[0];
      if Overflows(current, s, maxCap) {
        var tail := ClustersFrom([s], rest[1..], maxCap);
        ClustersFromShape([s], rest[1..], maxCap);
        assert tail[0][..1] == [s];
        GreedyShapeCons(current, tail, maxCap);
      } else {
        var next := current + [s];
        JoinedWithinCapExtend(current, s, maxCap);
        ClustersFromShape(next, rest[1..], maxCap);
        var cs := ClustersFrom(next, rest[1..], maxCap);
        assert cs[0][..|current|] == (cs[0][..|current| + 1])[..|current|];
      }
    }
  }

  /** A cluster that joined within the cap and holds two or more services has a running sum within the cap. */
  lemma CapDemandWithinCap(c: seq<CarrierService>, maxCap: int)
    requires JoinedWithinCap(c, maxCap) && |c| >= 2
    ensures CapDemand(c) as int <= maxCap
  {
    var k := |c| - 1;
    assert !Overflows(c[..k], c[k], maxCap);
  }

  /**
   * The shape of the greedy clustering, which fixes the split of the group:
   * the first cluster is empty exactly when the group is empty or its first
   * service alone exceeds the cap; every later cluster is non-empty; every
   * service after the first of its cluster joined without the running `int`
   * sum passing the cap; a cluster is closed exactly when the next service
   * would have pushed that sum past the cap; so a cluster's sum exceeds the
   * cap only when it holds at most one service.
   */
  lemma ClustersShape(group: seq<CarrierService>, maxCap: int)
    ensures var cs := Clusters(group, maxCap);
      && |cs| >= 1
      && (cs[0] == [] <==> group == [] || group[0].demand as int > maxCap)
      && (forall i :: 1 <= i < |cs| ==> cs[i] != [])
      && (forall i, k :: 0 <= i < |cs| && 0 < k < |cs[i]| ==> !Overflows(cs[i][..k], cs[i][k], maxCap))
      && (forall i, j :: 0 <= i && j == i + 1 && j < |cs| ==> Overflows(cs[i], cs[j][0], maxCap))
      && (forall i :: 0 <= i < |cs| && CapDemand(cs[i]) as int > maxCap ==> |cs[i]| <= 1)
  {
    ClustersFromShape([], group, maxCap);
    var cs := Clusters(group, maxCap);
    assert GreedyShape(cs, maxCap);
    if group != [] {
      assert Overflows([], group[0], maxCap) <==> group[0].demand as int > maxCap;
      if group[0].demand as int <= maxCap {
        assert cs == ClustersFrom([group[0]], group[1..], maxCap);
        ClustersFromShape([group[0]], group[1..], maxCap);
      }
    }
    forall i | 0 <= i < |cs| && CapDemand(cs[i]) as int > maxCap ensures |cs[i]| <= 1 {
      if |cs[i]| >= 2 {
        CapDemandWithinCap(cs[i], maxCap);
      }
    }
  }

  /**
   * The sum wraps around: a first service of demand `Integer.MAX_VALUE`
   * exceeds a cap of 230 alone, and the next service of demand 1 then joins
   * it, because `Integer.MAX_VALUE + 1` is `Integer.MIN_VALUE` in `int`
   * arithmetic; the cluster's service gets that negative demand.
   */
  lemma WrappedSumJoinsCluster(a: CarrierService, b: CarrierService)
    requires a.demand as int == INTEGER_MAX_VALUE && b.demand == 1
    ensures Clusters([a, b], 230) == [[], [a, b]]
    ensures CapDemand([a, b]) as int == INTEGER_MIN_VALUE
  {
    assert [a][..0] == [] && [a, b][..1] == [a];
    assert CapDemand([a]) as int == INTEGER_MAX_VALUE;
    assert Overflows([], a, 230);
    assert !Overflows([a], b, 230);
    assert [a, b][1..] == [b] && [b][1..] == [];
    calc {
      Clusters([a, b], 230);
      [[]] + ClustersFrom([a], [b], 230);
      [[]] + ClustersFrom([a] + [b], [], 230);
      { assert [a] + [b] == [a, b]; }
      [[], [a, b]];
    }
  }

  // ---------------------------------------------------------------------------
  // The services a group puts and removes
  // ---------------------------------------------------------------------------

  function ClusterId(linkId: LinkId, timeWindow: TimeWindow, counter: nat): ServiceId {
    ClusterServiceId(linkId, timeWindow.start, timeWindow.end, counter)
  }

  /** The service created for the `counter`-th cluster of a group, as the builder makes it. */
  function ClusterService(linkId: LinkId, timeWindow: TimeWindow, counter: nat, capDemand: Int32, duration: real): (s: CarrierService)
    ensures s.id == Some(ClusterId(linkId, timeWindow, counter)) && s.locationId == Some(linkId)
    ensures s.timeWindow == timeWindow && s.demand == capDemand && s.serviceDuration == duration
  {
    CarrierService(Some(ClusterId(linkId, timeWindow, counter)), Some(linkId), DEFAULT_NAME, duration, timeWindow, capDemand, DEFAULT_COORD)
  }

  /** The builder made from a link leaves the coordinate unset. */
  const DEFAULT_COORD: Option<Coord> := None

  function Removals(c: seq<CarrierService>): (ops: seq<MapOp>)
    ensures |ops| == |c|
    ensures forall i :: 0 <= i < |c| ==> ops[i] == Remove(c[i].id)
  {
    seq(|c|, i requires 0 <= i < |c| => Remove(c[i].id))
  }

  /** The `put` of the `counter`-th cluster's service. */
  function CloseOp(linkId: LinkId, timeWindow: TimeWindow, counter: nat, c: seq<CarrierService>): MapOp {
    Put(ClusterId(linkId, timeWindow, counter), ClusterService(linkId, timeWindow, counter, CapDemand(c), Duration(c)))
  }

  /**
   * The operations of a group whose clusters are `cs`, numbered from `counter`:
   * each cluster's services are removed, and then the cluster's service is put.
   */
  function GroupOps(linkId: LinkId, timeWindow: TimeWindow, cs: seq<seq<CarrierService>>, counter: nat): seq<MapOp>
    decreases |cs|
  {
    if cs == [] then []
    else Removals(cs[0]) + [CloseOp(linkId, timeWindow, counter, cs[0])] + GroupOps(linkId, timeWindow, cs[1..], counter + 1)
  }

  lemma {:induction false} GroupOpsAppend(linkId: LinkId, timeWindow: TimeWindow, cs: seq<seq<CarrierService>>, c: seq<CarrierService>, counter: nat)
    ensures GroupOps(linkId, timeWindow, cs + [c], counter)
         == GroupOps(linkId, timeWindow, cs, counter) + Removals(c) + [CloseOp(linkId, timeWindow, counter + |cs|, c)]
    decreases |cs|
  {
    if cs != [] {
      assert (cs + [c])[1..] == cs[1..] + [c];
      GroupOpsAppend(linkId, timeWindow, cs[1..], c, counter + 1);
    } else {
      assert GroupOps(linkId, timeWindow, [c][1..], counter + 1) == [];
    }
  }

  /** The operations of a group so far, when the clusters `closed` are done and `current` is open. */
  function OpsSoFar(linkId: LinkId, timeWindow: TimeWindow, closed: seq<seq<CarrierService>>, current: seq<CarrierService>): seq<MapOp> {
    GroupOps(linkId, timeWindow, closed, 1) + Removals(current)
  }

  lemma ApplyAppendTwo(m: map<ServiceId, CarrierService>, ops: seq<MapOp>, a: MapOp, b: MapOp)
    ensures Apply(m, ops + [a, b]) == Step(Step(Apply(m, ops), a), b)
  {
    ApplyAppendOne(m, ops, a);
    assert ops + [a, b] == (ops + [a]) + [b];
    ApplyAppendOne(m, ops + [a], b);
  }

  /** A service that overflows the open cluster: the cluster is put, and the service removed. */
  lemma CloseStep(m: map<ServiceId, CarrierService>, linkId: LinkId, timeWindow: TimeWindow,
                  closed: seq<seq<CarrierService>>, current: seq<CarrierService>, s: CarrierService)
    ensures Apply(m, OpsSoFar(linkId, timeWindow, closed + [current], [s]))
         == Step(Step(Apply(m, OpsSoFar(linkId, timeWindow, closed, current)),
                      CloseOp(linkId, timeWindow, |closed| + 1, current)), Remove(s.id))
  {
    GroupOpsAppend(linkId, timeWindow, closed, current, 1);
    assert Removals([s]) == [Remove(s.id)];
    assert OpsSoFar(linkId, timeWindow, closed + [current], [s])
        == OpsSoFar(linkId, timeWindow, closed, current) + [CloseOp(linkId, timeWindow, |closed| + 1, current), Remove(s.id)];
    ApplyAppendTwo(m, OpsSoFar(linkId, timeWindow, closed, current), CloseOp(linkId, timeWindow, |closed| + 1, current), Remove(s.id));
  }

  /** A service that fits into the open cluster: it is only removed. */
  lemma ExtendStep(m: map<ServiceId, CarrierService>, linkId: LinkId, timeWindow: TimeWindow,
                   closed: seq<seq<CarrierService>>, current: seq<CarrierService>, s: CarrierService)
    ensures Apply(m, OpsSoFar(linkId, timeWindow, closed, current + [s]))
         == Step(Apply(m, OpsSoFar(linkId, timeWindow, closed, current)), Remove(s.id))
  {
    assert Removals(current + [s]) == Removals(current) + [Remove(s.id)];
    assert OpsSoFar(linkId, timeWindow, closed, current + [s]) == OpsSoFar(linkId, timeWindow, closed, current) + [Remove(s.id)];
    ApplyAppendOne(m, OpsSoFar(linkId, timeWindow, closed, current), Remove(s.id));
  }

  /** After the last service the open cluster is put too. */
  lemma FinalStep(m: map<ServiceId, CarrierService>, linkId: LinkId, timeWindow: TimeWindow,
                  closed: seq<seq<CarrierService>>, current: seq<CarrierService>)
    ensures Apply(m, GroupOps(linkId, timeWindow, closed + [current], 1))
         == Step(Apply(m, OpsSoFar(linkId, timeWindow, closed, current)), CloseOp(linkId, timeWindow, |closed| + 1, current))
  {
    GroupOpsAppend(linkId, timeWindow, closed, current, 1);
    ApplyAppendOne(m, OpsSoFar(linkId, timeWindow, closed, current), CloseOp(linkId, timeWindow, |closed| + 1, current));
  }

  /** The services created for clusters `cs`, numbered from `counter`, keyed by their ids. */
  function CreatedServices(linkId: LinkId, timeWindow: TimeWindow, cs: seq<seq<CarrierService>>, counter: nat): map<ServiceId, CarrierService> {
    map k | counter <= k < counter + |cs| ::
      ClusterId(linkId, timeWindow, k) := ClusterService(linkId, timeWindow, k, CapDemand(cs[k - counter]), Duration(cs[k - counter]))
  }

  function IdsOf(c: seq<CarrierService>): set<ServiceId> {
    set s | s in c && s.id.Some? :: s.id.value
  }

  lemma {:induction false} RemovalsRemoveIds(c: seq<CarrierService>)
    ensures PutsOf(Removals(c)) == map[]
    ensures RemovedKeys(Removals(c)) == IdsOf(c)
    decreases |c|
  {
    if c != [] {
      var init := c[..|c| - 1];
      assert Removals(c)[..|c| - 1] == Removals(init);
      RemovalsRemoveIds(init);
      assert forall s :: s in c <==> s in init || s == c[|c| - 1];
    }
  }

  lemma CreatedServicesUnfold(linkId: LinkId, timeWindow: TimeWindow, cs: seq<seq<CarrierService>>, counter: nat)
    requires cs != []
    ensures var put := CloseOp(linkId, timeWindow, counter, cs[0]);
      CreatedServices(linkId, timeWindow, cs, counter)
        == map[put.key := put.service] + CreatedServices(linkId, timeWindow, cs[1..], counter + 1)
  {
  }

  lemma IdsOfAppend(a: seq<CarrierService>, b: seq<CarrierService>)
    ensures IdsOf(a + b) == IdsOf(a) + IdsOf(b)
  {
  }

  lemma {:induction false} GroupOpsEffect(linkId: LinkId, timeWindow: TimeWindow, cs: seq<seq<CarrierService>>, counter: nat)
    ensures PutsOf(GroupOps(linkId, timeWindow, cs, counter)) == CreatedServices(linkId, timeWindow, cs, counter)
    ensures RemovedKeys(GroupOps(linkId, timeWindow, cs, counter)) == IdsOf(Flatten(cs))
    decreases |cs|
  {
    if cs != [] {
      var put := CloseOp(linkId, timeWindow, counter, cs[0]);
      var removals := Removals(cs[0]);
      var tail := GroupOps(linkId, timeWindow, cs[1..], counter + 1);
      GroupOpsEffect(linkId, timeWindow, cs[1..], counter + 1);
      RemovalsRemoveIds(cs[0]);
      PutsAndRemovalsOfAppend(removals, [put]);
      PutsAndRemovalsOfAppend(removals + [put], tail);
      assert PutsOf([put]) == map[put.key := put.service] by {
        assert [put][..0] == [];
      }
      assert RemovedKeys([put]) == {} by {
        assert [put][..0] == [];
      }
      CreatedServicesUnfold(linkId, timeWindow, cs, counter);
      IdsOfAppend(cs[0], Flatten(cs[1..]));
    } else {
      assert CreatedServices(linkId, timeWindow, cs, counter) == map[];
    }
  }

  /** No service of the group already carries one of the ids the group's clusters are given. */
  ghost predicate FreshClusterIds(group: seq<CarrierService>, linkId: LinkId, timeWindow: TimeWindow) {
    forall s :: s in group && s.id.Some? ==> !(s.id.value.ClusterServiceId? && s.id.value.link == linkId
                                                && s.id.value.start == timeWindow.start && s.id.value.end == timeWindow.end)
  }

  /**
   * The effect of clustering one group on the carrier: every service of the
   * group is removed, and one new service per cluster is added, carrying the
   * group's link and time window and numbered 1, 2, ... in creation order.
   */
  lemma GroupReplacesServices(m: map<ServiceId, CarrierService>, linkId: LinkId, timeWindow: TimeWindow,
                              group: seq<CarrierService>, maxCap: int)
    requires FreshClusterIds(group, linkId, timeWindow)
    ensures var cs := Clusters(group, maxCap);
      Apply(m, GroupOps(linkId, timeWindow, cs, 1)) == (m - IdsOf(group)) + CreatedServices(linkId, timeWindow, cs, 1)
  {
    var cs := Clusters(group, maxCap);
    var ops := GroupOps(linkId, timeWindow, cs, 1);
    GroupOpsEffect(linkId, timeWindow, cs, 1);
    ClustersConserveGroup(group, maxCap);
    ApplyWithoutConflicts(m, ops);
  }

  // ---------------------------------------------------------------------------
  // The source's loops
  // ---------------------------------------------------------------------------

  /** `createServiceAndIncrementCounter`: builds the next cluster's service and puts it into the carrier. */
  method CreateServiceAndIncrementCounter(carrier: Carrier, linkId: LinkId, timeWindow: TimeWindow,
                                          capDemand: Int32, duration: real, createdServices: nat)
      returns (counter: nat)
    modifies carrier
    ensures counter == createdServices + 1
    ensures carrier.services == old(carrier.services)[ClusterId(linkId, timeWindow, counter) :=
                                  ClusterService(linkId, timeWindow, counter, capDemand, duration)]
  {
    counter := createdServices + 1;
    var id := ClusterId(linkId, timeWindow, counter);
    var builder := new Builder.NewInstance(Some(id), Some(linkId));
    builder := builder.SetServiceDuration(duration);
    builder := builder.SetCapacityDemand(capDemand);
    builder := builder.SetServiceStartTimeWindow(timeWindow);
    carrier.services := carrier.services[id := builder.Build()];
  }

  /** One (link, time window) group: the body of the loop over a link's time windows. */
  method ClusterGroup(carrier: Carrier, linkId: LinkId, timeWindow: TimeWindow, group: seq<CarrierService>,
                      maxCapDemandPerService: int)
      returns (createdServices: nat)
    modifies carrier
    ensures createdServices == |Clusters(group, maxCapDemandPerService)|
    ensures carrier.services ==
              Apply(old(carrier.services), GroupOps(linkId, timeWindow, Clusters(group, maxCapDemandPerService), 1))
  {
    ghost var m := carrier.services;
    var capDemand: Int32 := 0;
    var duration := 0.0;
    createdServices := 0;
    ghost var closed: seq<seq<CarrierService>> := [];
    ghost var current: seq<CarrierService> := [];
    for i := 0 to |group|
      invariant Clusters(group, maxCapDemandPerService) == closed + ClustersFrom(current, group[i..], maxCapDemandPerService)
      invariant createdServices == |closed|
      invariant capDemand == CapDemand(current) && duration == Duration(current)
      invariant carrier.services == Apply(m, OpsSoFar(linkId, timeWindow, closed, current))
    {
      var service := group[i];
      assert group[i..][1..] == group[i + 1..];
      var sum := AddInt32(capDemand, service.demand);
      if sum as int > maxCapDemandPerService {
        createdServices := CreateServiceAndIncrementCounter(carrier, linkId, timeWindow, capDemand, duration, createdServices);
        CloseStep(m, linkId, timeWindow, closed, current, service);
        closed := closed + [current];
        current := [service];
        capDemand := service.demand;
        duration := service.serviceDuration;
        assert current[..0] == [];
        assert CapDemand(current) == AddInt32(0, service.demand);
      } else {
        capDemand := sum;
        duration := duration + service.serviceDuration;
        ExtendStep(m, linkId, timeWindow, closed, current, service);
        assert (current + [service])[..|current|] == current;
        current := current + [service];
      }
      if service.id.Some? {
        carrier.services := carrier.services - {service.id.value};
      }
    }
    FinalStep(m, linkId, timeWindow, closed, current);
    createdServices := CreateServiceAndIncrementCounter(carrier, linkId, timeWindow, capDemand, duration, createdServices);
  }

  // ---------------------------------------------------------------------------
  // The whole carrier: grouping by link, then by start time window
  // ---------------------------------------------------------------------------

  /** The keys of a grouping, in the order of their first appearance. */
  function Distinct<K(==,!new)>(ks: seq<K>): (ds: seq<K>)
    ensures forall k :: k in ds <==> k in ks
    ensures forall i, j :: 0 <= i < j < |ds| ==> ds[i] != ds[j]
  {
    if ks == [] then []
    else
      var ds := Distinct(ks[..|ks| - 1]);
      if ks[|ks| - 1] in ds then ds else ds + [ks[|ks| - 1]]
  }

  /** `order` visits every key of `services` exactly once: the iteration order of the carrier's map. */
  ghost predicate IterationOrder(order: seq<ServiceId>, services: map<ServiceId, CarrierService>) {
    && (forall id :: id in order <==> id in services)
    && (forall i, j :: 0 <= i < j < |order| ==> order[i] != order[j])
  }

  ghost predicate Located(svcs: seq<CarrierService>) {
    forall s :: s in svcs ==> s.locationId.Some?
  }

  function InOrder(services: map<ServiceId, CarrierService>, order: seq<ServiceId>): (svcs: seq<CarrierService>)
    requires forall id :: id in order ==> id in services
    ensures |svcs| == |order|
    ensures forall i :: 0 <= i < |order| ==> svcs[i] == services[order[i]]
  {
    seq(|order|, i requires 0 <= i < |order| => services[order[i]])
  }

  /** The keys of `groupingBy(getLocationLinkId)`. */
  function LinkIds(svcs: seq<CarrierService>): (links: seq<LinkId>)
    requires Located(svcs)
    ensures forall link :: link in links <==> exists s :: s in svcs && s.locationId == Some(link)
  {
    var links := Distinct(seq(|svcs|, i requires 0 <= i < |svcs| => svcs[i].locationId.value));
    assert forall s :: s in svcs ==> s.locationId.value in links by {
      forall s | s in svcs ensures s.locationId.value in links {
        var i :| 0 <= i < |svcs| && svcs[i] == s;
        assert seq(|svcs|, i requires 0 <= i < |svcs| => svcs[i].locationId.value)[i] == s.locationId.value;
      }
    }
    links
  }

  /** The group of `groupingBy(getLocationLinkId)` for `link`. */
  function OnLink(svcs: seq<CarrierService>, link: LinkId): (r: seq<CarrierService>)
    ensures forall s :: s in r <==> s in svcs && s.locationId == Some(link)
  {
    if svcs == [] then []
    else
      var r := OnLink(svcs[..|svcs| - 1], link);
      var last := svcs[|svcs| - 1];
      assert forall s :: s in svcs <==> s in svcs[..|svcs| - 1] || s == last;
      if last.locationId == Some(link) then r + [last] else r
  }

  /** The keys of `groupingBy(getServiceStartTimeWindow)`. */
  function StartWindows(svcs: seq<CarrierService>): (tws: seq<TimeWindow>)
    ensures forall tw :: tw in tws <==> exists s :: s in svcs && s.timeWindow == tw
  {
    var tws := Distinct(seq(|svcs|, i requires 0 <= i < |svcs| => svcs[i].timeWindow));
    assert forall s :: s in svcs ==> s.timeWindow in tws by {
      forall s | s in svcs ensures s.timeWindow in tws {
        var i :| 0 <= i < |svcs| && svcs[i] == s;
        assert seq(|svcs|, i requires 0 <= i < |svcs| => svcs[i].timeWindow)[i] == s.timeWindow;
      }
    }
    tws
  }

  /** The group of `groupingBy(getServiceStartTimeWindow)` for `tw`. */
  function InWindow(svcs: seq<CarrierService>, tw: TimeWindow): (r: seq<CarrierService>)
    ensures forall s :: s in r <==> s in svcs && s.timeWindow == tw
  {
    if svcs == [] then []
    else
      var r := InWindow(svcs[..|svcs| - 1], tw);
      var last := svcs[|svcs| - 1];
      assert forall s :: s in svcs <==> s in svcs[..|svcs| - 1] || s == last;
      if last.timeWindow == tw then r + [last] else r
  }

  /** The operations for the time windows `tws` of the services `onLink` on link `linkId`, in order. */
  function WindowOps(linkId: LinkId, onLink: seq<CarrierService>, tws: seq<TimeWindow>, maxCap: int): seq<MapOp> {
    if tws == [] then []
    else
      var tw := tws[|tws| - 1];
      WindowOps(linkId, onLink, tws[..|tws| - 1], maxCap) + GroupOps(linkId, tw, Clusters(InWindow(onLink, tw), maxCap), 1)
  }

  /** The operations for the links `links`, in order. */
  function LinkOps(svcs: seq<CarrierService>, links: seq<LinkId>, maxCap: int): seq<MapOp> {
    if links == [] then []
    else
      var link := links[|links| - 1];
      var onLink := OnLink(svcs, link);
      LinkOps(svcs, links[..|links| - 1], maxCap) + WindowOps(link, onLink, StartWindows(onLink), maxCap)
  }

  /** Every operation of clustering the services `svcs`, in the order the source performs them. */
  function ClusteringOps(svcs: seq<CarrierService>, maxCap: int): seq<MapOp>
    requires Located(svcs)
  {
    LinkOps(svcs, LinkIds(svcs), maxCap)
  }

  lemma WindowOpsStep(linkId: LinkId, onLink: seq<CarrierService>, tws: seq<TimeWindow>, j: nat, maxCap: int)
    requires j < |tws|
    ensures WindowOps(linkId, onLink, tws[..j + 1], maxCap)
         == WindowOps(linkId, onLink, tws[..j], maxCap) + GroupOps(linkId, tws[j], Clusters(InWindow(onLink, tws[j]), maxCap), 1)
  {
    assert tws[..j + 1][..j] == tws[..j];
  }

  lemma LinkOpsStep(svcs: seq<CarrierService>, links: seq<LinkId>, i: nat, maxCap: int)
    requires i < |links|
    ensures LinkOps(svcs, links[..i + 1], maxCap)
         == LinkOps(svcs, links[..i], maxCap) + WindowOps(links[i], OnLink(svcs, links[i]), StartWindows(OnLink(svcs, links[i])), maxCap)
  {
    assert links[..i + 1][..i] == links[..i];
  }

  /** One link: the body of the loop over the link ids. */
  method ClusterLink(carrier: Carrier, linkId: LinkId, onLink: seq<CarrierService>, maxCapDemandPerService: int)
    modifies carrier
    ensures carrier.services == Apply(old(carrier.services), WindowOps(linkId, onLink, StartWindows(onLink), maxCapDemandPerService))
  {
    ghost var m := carrier.services;
    var timeWindows := StartWindows(onLink);
    for j := 0 to |timeWindows|
      invariant carrier.services == Apply(m, WindowOps(linkId, onLink, timeWindows[..j], maxCapDemandPerService))
    {
      var timeWindow := timeWindows[j];
      var group := InWindow(onLink, timeWindow);
      var created := ClusterGroup(carrier, linkId, timeWindow, group, maxCapDemandPerService);
      ApplyConcat(m, WindowOps(linkId, onLink, timeWindows[..j], maxCapDemandPerService),
                  GroupOps(linkId, timeWindow, Clusters(group, maxCapDemandPerService), 1));
      WindowOpsStep(linkId, onLink, timeWindows, j, maxCapDemandPerService);
    }
    assert timeWindows[..|timeWindows|] == timeWindows;
  }

  /**
   * `clusterAllServicesOnTheSameLinkWithMaxCap`: the carrier's services, visited
   * in `serviceOrder`, grouped by link and then by start time window, every group
   * clustered in turn.
   */
  method ClusterAllServicesOnTheSameLinkWithMaxCap(carrier: Carrier, maxCapDemandPerService: int, serviceOrder: seq<ServiceId>)
    requires IterationOrder(serviceOrder, carrier.services)
    requires forall id :: id in carrier.services ==> carrier.services[id].locationId.Some?
    modifies carrier
    ensures carrier.services ==
              Apply(old(carrier.services), ClusteringOps(InOrder(old(carrier.services), serviceOrder), maxCapDemandPerService))
  {
    ghost var m := carrier.services;
    var services := InOrder(carrier.services, serviceOrder);
    var linkIds := LinkIds(services);
    for i := 0 to |linkIds|
      invariant carrier.services == Apply(m, LinkOps(services, linkIds[..i], maxCapDemandPerService))
    {
      var linkId := linkIds[i];
      var onLink := OnLink(services, linkId);
      ClusterLink(carrier, linkId, onLink, maxCapDemandPerService);
      ApplyConcat(m, LinkOps(services, linkIds[..i], maxCapDemandPerService),
                  WindowOps(linkId, onLink, StartWindows(onLink), maxCapDemandPerService));
      LinkOpsStep(services, linkIds, i, maxCapDemandPerService);
    }
    assert linkIds[..|linkIds|] == linkIds;
  }

  // ---------------------------------------------------------------------------
  // What clustering does to the whole carrier
  // ---------------------------------------------------------------------------

  /** `s` is a cluster service stored under its own id, on the link and in the time window that id names. */
  ghost predicate IsClusterServiceAt(key: ServiceId, s: CarrierService) {
    && key.ClusterServiceId?
    && s.id == Some(key)
    && s.locationId == Some(key.link)
    && s.timeWindow == TimeWindow(key.start, key.end)
  }

  ghost predicate PutsClusterServices(ops: seq<MapOp>) {
    forall i :: 0 <= i < |ops| && ops[i].Put? ==> IsClusterServiceAt(ops[i].key, ops[i].service)
  }

  lemma PutsClusterServicesConcat(a: seq<MapOp>, b: seq<MapOp>)
    requires PutsClusterServices(a) && PutsClusterServices(b)
    ensures PutsClusterServices(a + b)
  {
    forall i | 0 <= i < |a + b| && (a + b)[i].Put? ensures IsClusterServiceAt((a + b)[i].key, (a + b)[i].service) {
      if i >= |a| {
        assert (a + b)[i] == b[i - |a|];
      }
    }
  }

  lemma {:induction false} PutsOfClusterServices(ops: seq<MapOp>)
    requires PutsClusterServices(ops)
    ensures forall k :: k in PutsOf(ops) ==> IsClusterServiceAt(k, PutsOf(ops)[k])
  {
    if ops != [] {
      PutsOfClusterServices(ops[..|ops| - 1]);
    }
  }

  lemma {:induction false} GroupOpsPutClusterServices(linkId: LinkId, timeWindow: TimeWindow, cs: seq<seq<CarrierService>>, counter: nat)
    ensures PutsClusterServices(GroupOps(linkId, timeWindow, cs, counter))
    decreases |cs|
  {
    if cs != [] {
      GroupOpsPutClusterServices(linkId, timeWindow, cs[1..], counter + 1);
      var head := Removals(cs[0]) + [CloseOp(linkId, timeWindow, counter, cs[0])];
      assert PutsClusterServices(head) by {
        forall i | 0 <= i < |head| && head[i].Put? ensures IsClusterServiceAt(head[i].key, head[i].service) {
          assert i == |cs[0]|;
        }
      }
      PutsClusterServicesConcat(head, GroupOps(linkId, timeWindow, cs[1..], counter + 1));
    }
  }

  lemma {:induction false} WindowOpsPutClusterServices(linkId: LinkId, onLink: seq<CarrierService>, tws: seq<TimeWindow>, maxCap: int)
    ensures PutsClusterServices(WindowOps(linkId, onLink, tws, maxCap))
  {
    if tws != [] {
      var tw := tws[|tws| - 1];
      WindowOpsPutClusterServices(linkId, onLink, tws[..|tws| - 1], maxCap);
      GroupOpsPutClusterServices(linkId, tw, Clusters(InWindow(onLink, tw), maxCap), 1);
      PutsClusterServicesConcat(WindowOps(linkId, onLink, tws[..|tws| - 1], maxCap),
                                GroupOps(linkId, tw, Clusters(InWindow(onLink, tw), maxCap), 1));
    }
  }

  lemma {:induction false} LinkOpsPutClusterServices(svcs: seq<CarrierService>, links: seq<LinkId>, maxCap: int)
    ensures PutsClusterServices(LinkOps(svcs, links, maxCap))
  {
    if links != [] {
      var link := links[|links| - 1];
      var onLink := OnLink(svcs, link);
      LinkOpsPutClusterServices(svcs, links[..|links| - 1], maxCap);
      WindowOpsPutClusterServices(link, onLink, StartWindows(onLink), maxCap);
      PutsClusterServicesConcat(LinkOps(svcs, links[..|links| - 1], maxCap), WindowOps(link, onLink, StartWindows(onLink), maxCap));
    }
  }

  lemma {:induction false} WindowOpsRemove(linkId: LinkId, onLink: seq<CarrierService>, tws: seq<TimeWindow>, maxCap: int)
    ensures RemovedKeys(WindowOps(linkId, onLink, tws, maxCap))
         == set s | s in onLink && s.timeWindow in tws && s.id.Some? :: s.id.value
  {
    if tws != [] {
      var init := tws[..|tws| - 1];
      var tw := tws[|tws| - 1];
      var group := InWindow(onLink, tw);
      WindowOpsRemove(linkId, onLink, init, maxCap);
      PutsAndRemovalsOfAppend(WindowOps(linkId, onLink, init, maxCap), GroupOps(linkId, tw, Clusters(group, maxCap), 1));
      GroupOpsEffect(linkId, tw, Clusters(group, maxCap), 1);
      ClustersConserveGroup(group, maxCap);
      assert forall x :: x in tws <==> x in init || x == tw;
    }
  }

  lemma {:induction false} LinkOpsRemove(svcs: seq<CarrierService>, links: seq<LinkId>, maxCap: int)
    ensures RemovedKeys(LinkOps(svcs, links, maxCap))
         == set s | s in svcs && s.locationId.Some? && s.locationId.value in links && s.id.Some? :: s.id.value
  {
    if links != [] {
      var init := links[..|links| - 1];
      var link := links[|links| - 1];
      var onLink := OnLink(svcs, link);
      LinkOpsRemove(svcs, init, maxCap);
      PutsAndRemovalsOfAppend(LinkOps(svcs, init, maxCap), WindowOps(link, onLink, StartWindows(onLink), maxCap));
      WindowOpsRemove(link, onLink, StartWindows(onLink), maxCap);
      assert forall x :: x in links <==> x in init || x == link;
    }
  }

  lemma AllLinksCoverEveryId(svcs: seq<CarrierService>)
    requires Located(svcs)
    ensures (set s | s in svcs && s.locationId.Some? && s.locationId.value in LinkIds(svcs) && s.id.Some? :: s.id.value) == IdsOf(svcs)
  {
  }

  lemma InOrderIds(m: map<ServiceId, CarrierService>, order: seq<ServiceId>)
    requires IterationOrder(order, m)
    requires forall id :: id in m ==> m[id].id == Some(id)
    ensures IdsOf(InOrder(m, order)) == m.Keys
  {
    var svcs := InOrder(m, order);
    forall id | id in m ensures id in IdsOf(svcs) {
      var i :| 0 <= i < |order| && order[i] == id;
      assert svcs[i] == m[id] && svcs[i] in svcs;
    }
    forall id | id in IdsOf(svcs) ensures id in m {
      var s :| s in svcs && s.id == Some(id);
      var i :| 0 <= i < |svcs| && svcs[i] == s;
      assert m[order[i]].id == Some(order[i]);
    }
  }

  /** Clustering removes exactly the carrier's original keys: every service is in some group. */
  lemma ClusteringRemovesOriginalKeys(m: map<ServiceId, CarrierService>, order: seq<ServiceId>, maxCap: int)
    requires IterationOrder(order, m)
    requires forall id :: id in m ==> m[id].locationId.Some? && m[id].id == Some(id)
    ensures RemovedKeys(ClusteringOps(InOrder(m, order), maxCap)) == m.Keys
  {
    var svcs := InOrder(m, order);
    assert Located(svcs);
    LinkOpsRemove(svcs, LinkIds(svcs), maxCap);
    AllLinksCoverEveryId(svcs);
    InOrderIds(m, order);
  }

  /**
   * Clustering a carrier whose services are stored under their own ids, none
   * of them a cluster id, replaces them all: afterwards no original service is
   * left, and every service is a cluster service stored under its own id, on
   * the link and in the time window its id names.
   */
  lemma ClusteringReplacesEveryService(m: map<ServiceId, CarrierService>, order: seq<ServiceId>, maxCap: int)
    requires IterationOrder(order, m)
    requires forall id :: id in m ==> m[id].locationId.Some? && m[id].id == Some(id) && !id.ClusterServiceId?
    ensures var r := Apply(m, ClusteringOps(InOrder(m, order), maxCap));
      && (forall id :: id in m ==> id !in r)
      && (forall id :: id in r ==> IsClusterServiceAt(id, r[id]))
  {
    var ops := ClusteringOps(InOrder(m, order), maxCap);
    ClusteringRemovesOriginalKeys(m, order, maxCap);
    LinkOpsPutClusterServices(InOrder(m, order), LinkIds(InOrder(m, order)), maxCap);
    PutsOfClusterServices(ops);
    ApplyWithoutConflicts(m, ops);
  }
}
