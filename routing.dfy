/** Weight-based lane routing: RoutingEngine, its two identical copies
    OptimizedRoutingEngine and SimpleRoutingEngine, and RoutingEngineAdapter,
    all behind the IRoutingEngine interface. Weights are exact reals here; the
    source uses doubles. */
module Warehouse {

  /** The result of routing one package: its barcode and weight, and the lane. */
  datatype Routing = Routing(barcode: string, weight: real, targetLane: string)

  const OverweightLimit: real := 50.0

  /** The lane a weight belongs to, stated as four disjoint weight ranges:
      above the limit is blocked, below 5 is Lane1, [5, 10) is Lane2 and
      [10, 50] is Lane3. */
  predicate LaneOfWeight(weight: real, lane: string)
  {
    && (lane == "BLOCKED" <==> weight > OverweightLimit)
    && (lane == "Lane1" <==> weight < 5.0)
    && (lane == "Lane2" <==> 5.0 <= weight < 10.0)
    && (lane == "Lane3" <==> 10.0 <= weight <= OverweightLimit)
  }

  /** The lanes ordered from lightest to blocked. */
  function LaneRank(lane: string): nat
  {
    if lane == "Lane1" then 1 else if lane == "Lane2" then 2 else if lane == "Lane3" then 3 else 4
  }

  /** RoutingEngine.Route */
  function RoutingEngineRoute(barcode: string, weight: real): (r: Routing)
    ensures r.barcode == barcode && r.weight == weight
    ensures r.targetLane in {"BLOCKED", "Lane1", "Lane2", "Lane3"}
    ensures LaneOfWeight(weight, r.targetLane)
  {
    if weight > OverweightLimit then Routing(barcode, weight, "BLOCKED")
    else if weight < 5.0 then Routing(barcode, weight, "Lane1")
    else if weight < 10.0 then Routing(barcode, weight, "Lane2")
    else Routing(barcode, weight, "Lane3")
  }

  /** OptimizedRoutingEngine.Route, a separate copy of the same checks. */
  function OptimizedRoutingEngineRoute(barcode: string, weight: real): (r: Routing)
    ensures r.barcode == barcode && r.weight == weight
    ensures r.targetLane in {"BLOCKED", "Lane1", "Lane2", "Lane3"}
    ensures LaneOfWeight(weight, r.targetLane)
  {
    if weight > OverweightLimit then Routing(barcode, weight, "BLOCKED")
    else if weight < 5.0 then Routing(barcode, weight, "Lane1")
    else if weight < 10.0 then Routing(barcode, weight, "Lane2")
    else Routing(barcode, weight, "Lane3")
  }

  /** SimpleRoutingEngine.Route, the baseline copy kept for comparison. */
  function SimpleRoutingEngineRoute(barcode: string, weight: real): (r: Routing)
    ensures r.barcode == barcode && r.weight == weight
    ensures r.targetLane in {"BLOCKED", "Lane1", "Lane2", "Lane3"}
    ensures LaneOfWeight(weight, r.targetLane)
  {
    if weight > OverweightLimit then Routing(barcode, weight, "BLOCKED")
    else if weight < 5.0 then Routing(barcode, weight, "Lane1")
    else if weight < 10.0 then Routing(barcode, weight, "Lane2")
    else Routing(barcode, weight, "Lane3")
  }

  /** An IRoutingEngine: one of the three engines, or an adapter around an
      inner engine fixed when the adapter is built. */
  datatype Engine =
    | RoutingEngine
    | OptimizedRoutingEngine
    | SimpleRoutingEngine
    | RoutingEngineAdapter(inner: Engine)

  /** IRoutingEngine.Route; the adapter forwards barcode and weight unchanged
      to its inner engine and returns that engine's routing. */
  function Route(engine: Engine, barcode: string, weight: real): (r: Routing)
    ensures r.barcode == barcode && r.weight == weight
    ensures LaneOfWeight(weight, r.targetLane)
    ensures r.targetLane in {"BLOCKED", "Lane1", "Lane2", "Lane3"}
    decreases engine
  {
    match engine
    case RoutingEngine => RoutingEngineRoute(barcode, weight)
    case OptimizedRoutingEngine => OptimizedRoutingEngineRoute(barcode, weight)
    case SimpleRoutingEngine => SimpleRoutingEngineRoute(barcode, weight)
    case RoutingEngineAdapter(inner) => Route(inner, barcode, weight)
  }

  /** The weight ranges name exactly one lane for every weight. */
  lemma LaneIsDetermined(weight: real, lane1: string, lane2: string)
    requires lane1 in {"BLOCKED", "Lane1", "Lane2", "Lane3"} && LaneOfWeight(weight, lane1)
    requires lane2 in {"BLOCKED", "Lane1", "Lane2", "Lane3"} && LaneOfWeight(weight, lane2)
    ensures lane1 == lane2
  {
  }

  /** Every engine, however deeply wrapped in adapters, routes every package
      exactly as RoutingEngine does. */
  lemma {:induction false} EnginesAgree(engine: Engine, barcode: string, weight: real)
    ensures Route(engine, barcode, weight) == RoutingEngineRoute(barcode, weight)
    decreases engine
  {
    match engine
    case RoutingEngineAdapter(inner) =>
      EnginesAgree(inner, barcode, weight);
    case _ =>
      LaneIsDetermined(weight, Route(engine, barcode, weight).targetLane,
                       RoutingEngineRoute(barcode, weight).targetLane);
  }

  /** A heavier package never gets a lighter lane. */
  lemma LaneMonotone(barcode: string, w1: real, w2: real)
    requires w1 <= w2
    ensures LaneRank(RoutingEngineRoute(barcode, w1).targetLane) <= LaneRank(RoutingEngineRoute(barcode, w2).targetLane)
  {
  }

  /** The boundary cases of the routing tests: 4.99, 5, 9.99, 10, 50 and 55. */
  lemma Boundaries()
    ensures RoutingEngineRoute("B", 4.99).targetLane == "Lane1"
    ensures RoutingEngineRoute("B", 5.0).targetLane == "Lane2"
    ensures RoutingEngineRoute("B", 9.99).targetLane == "Lane2"
    ensures RoutingEngineRoute("B", 10.0).targetLane == "Lane3"
    ensures RoutingEngineRoute("B", 50.0).targetLane == "Lane3"
    ensures RoutingEngineRoute("D", 55.0).targetLane == "BLOCKED"
  {
  }
}
