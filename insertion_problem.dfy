/**
 * The best insertion of a new request into one vehicle's schedule: every
 * candidate is scored once, in list order, and the strictly cheapest one
 * below the infeasibility sentinel wins.
 */
module SingleVehicleInsertion {
  import opened Wrappers
  import opened VehicleData

  /** A structural candidate: insert the pickup before stop `pickupIdx` and the dropoff before stop `dropoffIdx`. */
  datatype Insertion = Insertion(pickupIdx: nat, dropoffIdx: nat)

  /** A candidate joined with the detour data `D` resolved for it. */
  datatype InsertionWithDetourData<D> = InsertionWithDetourData(insertion: Insertion, detour: D)

  datatype BestInsertion<D> = BestInsertion(insertion: InsertionWithDetourData<D>, vehicleEntry: Entry, cost: real)

  /** Position `k` holds the first minimum of `costs`, and it lies strictly below `bound`. */
  ghost predicate IsFirstMinimumBelow(costs: seq<real>, k: int, bound: real) {
    && 0 <= k < |costs|
    && costs[k] < bound
    && (forall j :: 0 <= j < |costs| ==> costs[k] <= costs[j])
    && (forall j :: 0 <= j < k ==> costs[k] < costs[j])
  }

  class SingleVehicleInsertionProblem<D> {
    /** The detour data provider: the per-request, per-vehicle detour data set, which materialises a candidate. */
    const pathDataProvider: (DrtRequest, Entry) -> Insertion -> InsertionWithDetourData<D>
    /** The cost calculator, a pure function of request, entry and candidate. */
    const costCalculator: (DrtRequest, Entry, InsertionWithDetourData<D>) -> real
    /** `InsertionCostCalculator.INFEASIBLE_SOLUTION_COST`: the cost of every infeasible candidate. */
    const infeasibleSolutionCost: real

    constructor (pathDataProvider: (DrtRequest, Entry) -> Insertion -> InsertionWithDetourData<D>,
                 costCalculator: (DrtRequest, Entry, InsertionWithDetourData<D>) -> real,
                 infeasibleSolutionCost: real)
      ensures this.pathDataProvider == pathDataProvider
      ensures this.costCalculator == costCalculator
      ensures this.infeasibleSolutionCost == infeasibleSolutionCost
    {
      this.pathDataProvider := pathDataProvider;
      this.costCalculator := costCalculator;
      this.infeasibleSolutionCost := infeasibleSolutionCost;
    }

    /** The candidates with their detour data, in list order. */
    function Materialised(drtRequest: DrtRequest, vEntry: Entry, insertions: seq<Insertion>): (ds: seq<InsertionWithDetourData<D>>)
      ensures |ds| == |insertions|
      ensures forall i :: 0 <= i < |insertions| ==> ds[i] == pathDataProvider(drtRequest, vEntry)(insertions[i])
    {
      seq(|insertions|, i requires 0 <= i < |insertions| => pathDataProvider(drtRequest, vEntry)(insertions[i]))
    }

    /** The cost of each candidate, in list order. */
    function Costs(drtRequest: DrtRequest, vEntry: Entry, insertions: seq<Insertion>): (cs: seq<real>)
      ensures |cs| == |insertions|
      ensures forall i :: 0 <= i < |insertions| ==>
                cs[i] == costCalculator(drtRequest, vEntry, Materialised(drtRequest, vEntry, insertions)[i])
    {
      var ds := Materialised(drtRequest, vEntry, insertions);
      seq(|ds|, i requires 0 <= i < |ds| => costCalculator(drtRequest, vEntry, ds[i]))
    }

    /**
     * `findBestInsertion`: empty exactly when no candidate costs less than the
     * sentinel; otherwise the first cheapest candidate, carried together with
     * the unchanged vehicle entry and its cost.
     */
    method FindBestInsertion(drtRequest: DrtRequest, vEntry: Entry, insertions: seq<Insertion>)
        returns (best: Option<BestInsertion<D>>, ghost evaluated: seq<InsertionWithDetourData<D>>)
      ensures evaluated == Materialised(drtRequest, vEntry, insertions)
      ensures best.None? <==>
                forall i :: 0 <= i < |insertions| ==> Costs(drtRequest, vEntry, insertions)[i] >= infeasibleSolutionCost
      ensures best.Some? ==>
                exists k :: IsFirstMinimumBelow(Costs(drtRequest, vEntry, insertions), k, infeasibleSolutionCost)
                  && best.value == BestInsertion(evaluated[k], vEntry, Costs(drtRequest, vEntry, insertions)[k])
    {
      var detourDataSet := pathDataProvider(drtRequest, vEntry);
      ghost var costs := Costs(drtRequest, vEntry, insertions);
      var minCost := infeasibleSolutionCost;
      var bestInsertion: Option<InsertionWithDetourData<D>> := None;
      ghost var k := 0;
      evaluated := [];
      for i := 0 to |insertions|
        invariant evaluated == Materialised(drtRequest, vEntry, insertions)[..i]
        invariant minCost <= infeasibleSolutionCost
        invariant forall j :: 0 <= j < i ==> minCost <= costs[j]
        invariant bestInsertion.None? ==> minCost == infeasibleSolutionCost
        invariant bestInsertion.Some? ==>
                    && 0 <= k < i && minCost == costs[k] && minCost < infeasibleSolutionCost
                    && bestInsertion.value == evaluated[k]
                    && (forall j :: 0 <= j < k ==> costs[k] < costs[j])
      {
        var insertion := detourDataSet(insertions[i]);
        var cost := costCalculator(drtRequest, vEntry, insertion);
        evaluated := evaluated + [insertion];
        if cost < minCost {
          bestInsertion := Some(insertion);
          minCost := cost;
          k := i;
        }
      }
      if minCost == infeasibleSolutionCost {
        best := None;
      } else {
        best := Some(BestInsertion(bestInsertion.value, vEntry, minCost));
        assert IsFirstMinimumBelow(costs, k, infeasibleSolutionCost);
      }
    }
  }

  /** Two positions that both hold the first minimum are the same: the result is fully determined. */
  lemma FirstMinimumIsUnique(costs: seq<real>, k1: int, k2: int, bound: real)
    requires IsFirstMinimumBelow(costs, k1, bound)
    requires IsFirstMinimumBelow(costs, k2, bound)
    ensures k1 == k2
  {
  }
}
