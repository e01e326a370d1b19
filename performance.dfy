/** RoutingPerformance: Repeat builds a batch of identical inputs, and Measure
    routes every input once, in order. The elapsed time Measure returns is not
    part of this model; what it does with the engine is recorded as the list of
    routings it obtained. */
module Performance {
  import opened Warehouse

  /** Repeat: `count` copies of the input, none when count <= 0. */
  method Repeat(barcode: string, weight: real, count: int) returns (inputs: seq<(string, real)>)
    ensures count <= 0 ==> inputs == []
    ensures count > 0 ==> |inputs| == count
    ensures forall i :: 0 <= i < |inputs| ==> inputs[i] == (barcode, weight)
  {
    inputs := [];
    var i := 0;
    while i < count
      invariant count > 0 ==> 0 <= i <= count
      invariant count <= 0 ==> i == 0
      invariant |inputs| == i
      invariant forall k :: 0 <= k < |inputs| ==> inputs[k] == (barcode, weight)
    {
      inputs := inputs + [(barcode, weight)];
      i := i + 1;
    }
  }

  /** Measure: one call of engine.Route per input, in input order; the k-th
      routing is the engine's answer for the k-th input. */
  method Measure(engine: Engine, inputs: seq<(string, real)>) returns (routed: seq<Routing>)
    ensures |routed| == |inputs|
    ensures forall k :: 0 <= k < |inputs| ==> routed[k] == Route(engine, inputs[k].0, inputs[k].1)
  {
    routed := [];
    for i := 0 to |inputs|
      invariant |routed| == i
      invariant forall k :: 0 <= k < i ==> routed[k] == Route(engine, inputs[k].0, inputs[k].1)
    {
      var (barcode, weight) := inputs[i];
      var r := Route(engine, barcode, weight);
      routed := routed + [r];
    }
  }

  /** The performance runs: 100 copies of (PKG, 7.5) all go to Lane2 through
      either engine, and an empty batch routes nothing. */
  method PerformanceScenarios()
  {
    var inputs := Repeat("PKG", 7.5, 100);
    var a := Measure(RoutingEngine, inputs);
    var b := Measure(OptimizedRoutingEngine, inputs);
    assert |a| == 100 && a[99].targetLane == "Lane2";
    assert b[0] == a[0];
    var none := Repeat("PKG", 7.5, -3);
    var empty := Measure(RoutingEngine, none);
    assert empty == [];
  }
}
