/** SortingController.RoutePackage: a package for a zone is sent to that zone's
    gate, retrying a failed gate command until MaxRetries attempts have failed.
    The source draws each gate command's success at random; here the outcome of
    the n-th gate command ever sent is given by an oracle `gateOk(n)`. */
module Sorting {
  import opened DotNet

  const MaxRetries: nat := 3

  /** The fixed zone-to-gate table. */
  const GatePositions: map<string, string> := map["ZoneA" := "Gate1", "ZoneB" := "Gate2", "ZoneC" := "Gate3"]

  /** The gate for a zone, if the zone is known. */
  function GateFor(zone: string): (gate: Option<string>)
    ensures zone == "ZoneA" ==> gate == Some("Gate1")
    ensures zone == "ZoneB" ==> gate == Some("Gate2")
    ensures zone == "ZoneC" ==> gate == Some("Gate3")
    ensures zone !in {"ZoneA", "ZoneB", "ZoneC"} ==> gate == None
  {
    if zone in GatePositions then Some(GatePositions[zone]) else None
  }

  /** The retry count recorded for a zone; a zone never seen counts 0. */
  function RetriesOf(retryCount: map<string, int>, zone: string): int
  {
    if zone in retryCount then retryCount[zone] else 0
  }

  /** The attempts of one call when `retries` attempts have already failed and the
      next gate command is the n-th ever sent: how many commands it sends, and
      whether one of them succeeded. */
  function Attempts(gateOk: nat -> bool, n: nat, retries: nat): (r: (nat, bool))
    requires retries < MaxRetries
    ensures 1 <= r.0 <= MaxRetries - retries
    ensures !r.1 ==> r.0 == MaxRetries - retries
    decreases MaxRetries - retries
  {
    if gateOk(n) then (1, true)
    else if retries + 1 < MaxRetries then
      var (a, s) := Attempts(gateOk, n + 1, retries + 1);
      (a + 1, s)
    else (1, false)
  }

  /** The outcomes of the `len` gate commands starting with the n-th. */
  function Window(gateOk: nat -> bool, n: nat, len: nat): (w: seq<bool>)
    ensures |w| == len && forall j :: 0 <= j < len ==> w[j] == gateOk(n + j)
  {
    seq(len, j requires 0 <= j < len => gateOk(n + j))
  }

  /** What the retries amount to, over the outcomes w of the remaining
      MaxRetries - retries commands: at least one and at most all of them are
      sent; the call succeeds exactly when one of them would succeed, and then
      it stops at the first success; when it fails, it has used up every one. */
  lemma {:induction false} AttemptsMeaning(gateOk: nat -> bool, n: nat, retries: nat)
    requires retries < MaxRetries
    ensures var (a, s) := Attempts(gateOk, n, retries);
            var w := Window(gateOk, n, MaxRetries - retries);
            && 1 <= a <= |w|
            && (s <==> true in w)
            && (s ==> w[a - 1])
            && (forall j :: 0 <= j < a - 1 ==> !w[j])
            && (!s ==> a == |w|)
    decreases MaxRetries - retries
  {
    var w := Window(gateOk, n, MaxRetries - retries);
    if !gateOk(n) && retries + 1 < MaxRetries {
      AttemptsMeaning(gateOk, n + 1, retries + 1);
      var w' := Window(gateOk, n + 1, MaxRetries - retries - 1);
      assert w == [gateOk(n)] + w' by {
        forall j | 0 <= j < |w| ensures w[j] == ([gateOk(n)] + w')[j] {
          if j > 0 {
            assert w'[j - 1] == gateOk(n + 1 + (j - 1));
          }
        }
      }
    } else {
      assert w[0] == gateOk(n);
    }
  }

  /** `count` copies of one gate command. */
  function Commands(gate: string, count: nat): (r: seq<string>)
    ensures |r| == count && forall i :: 0 <= i < count ==> r[i] == gate
  {
    if count == 0 then [] else [gate] + Commands(gate, count - 1)
  }

  /** A zone RoutePackage accepts: present, not blank, and in the gate table. */
  predicate Routable(zone: Option<string>)
  {
    !IsNullOrWhiteSpace(zone) && zone.value in GatePositions
  }

  /** One command followed by `count` more is `count + 1` commands. */
  lemma CommandsCons(before: seq<string>, gate: string, count: nat)
    ensures before + [gate] + Commands(gate, count) == before + Commands(gate, count + 1)
  {
    assert [gate] + Commands(gate, count) == Commands(gate, count + 1);
  }

  class SortingController {
    /** The outcome of the n-th gate command sent, standing for the random draw. */
    const gateOk: nat -> bool
    var retryCount: map<string, int>
    var lastRoutedZone: string
    var lastRoutedGate: string
    /** The gate commands sent so far, in order. */
    var sent: seq<string>

    /** Between calls every recorded retry count lies in [0, MaxRetries). */
    predicate Valid()
      reads this
    {
      forall z :: z in retryCount ==> 0 <= retryCount[z] < MaxRetries
    }

    constructor (gateOk: nat -> bool)
      ensures Valid()
      ensures this.gateOk == gateOk && retryCount == map[] && sent == []
      ensures lastRoutedZone == "" && lastRoutedGate == ""
    {
      this.gateOk := gateOk;
      retryCount := map[];
      lastRoutedZone := "";
      lastRoutedGate := "";
      sent := [];
    }

    /** SendGateCommand: one command to the gate; its success is the oracle's. */
    method SendGateCommand(gate: string) returns (success: bool)
      modifies this
      ensures success == gateOk(|old(sent)|)
      ensures sent == old(sent) + [gate]
      ensures retryCount == old(retryCount)
      ensures lastRoutedZone == old(lastRoutedZone) && lastRoutedGate == old(lastRoutedGate)
    {
      success := gateOk(|sent|);
      sent := sent + [gate];
    }

    /** One more failed command for `zone`: a zone without a count starts from 0. */
    method CountFailure(zone: string) returns (failures: int)
      requires Valid()
      modifies this
      ensures 1 <= failures <= MaxRetries
      ensures failures < MaxRetries ==> Valid()
      ensures failures == RetriesOf(old(retryCount), zone) + 1
      ensures retryCount == old(retryCount)[zone := failures]
      ensures sent == old(sent)
      ensures lastRoutedZone == old(lastRoutedZone) && lastRoutedGate == old(lastRoutedGate)
    {
      if zone !in retryCount {
        retryCount := retryCount[zone := 0];
      }
      retryCount := retryCount[zone := retryCount[zone] + 1];
      failures := retryCount[zone];
    }

    /** RoutePackage: a blank or unknown zone is refused without touching
        anything. Otherwise the zone's gate is commanded until it succeeds or
        MaxRetries commands of this call have failed; the zone's retry count is
        0 afterwards either way, and only a success records the zone and gate. */
    method RoutePackage(zone: Option<string>) returns (routed: bool)
      requires Valid()
      modifies this
      ensures Valid()
      ensures !Routable(zone) ==> !routed && unchanged(this)
      ensures Routable(zone) ==>
                routed == Attempts(gateOk, |old(sent)|, RetriesOf(old(retryCount), zone.value)).1
      ensures Routable(zone) ==>
                sent == old(sent) + Commands(GatePositions[zone.value],
                                             Attempts(gateOk, |old(sent)|, RetriesOf(old(retryCount), zone.value)).0)
      ensures Routable(zone) ==> |old(sent)| < |sent| <= |old(sent)| + MaxRetries
      ensures Routable(zone) ==> retryCount == old(retryCount)[zone.value := 0]
      ensures Routable(zone) && routed ==>
                lastRoutedZone == zone.value && lastRoutedGate == GatePositions[zone.value]
      ensures !routed ==> lastRoutedZone == old(lastRoutedZone) && lastRoutedGate == old(lastRoutedGate)
      decreases if zone.Some? then MaxRetries - RetriesOf(retryCount, zone.value) else 0, 1
    {
      if IsNullOrWhiteSpace(zone) || zone.value !in GatePositions {
        return false;
      }
      routed := SendAndRetry(zone.value, GatePositions[zone.value]);
    }

    /** The body of RoutePackage past its guard: one command to the zone's
        gate; a success records the zone and gate, a failure is counted and,
        below MaxRetries failures, RoutePackage is called again for the zone. */
    method SendAndRetry(zone: string, gate: string) returns (routed: bool)
      requires Valid() && Routable(Some(zone)) && gate == GatePositions[zone]
      modifies this
      ensures Valid()
      ensures routed == Attempts(gateOk, |old(sent)|, RetriesOf(old(retryCount), zone)).1
      ensures sent == old(sent) + Commands(gate, Attempts(gateOk, |old(sent)|, RetriesOf(old(retryCount), zone)).0)
      ensures |old(sent)| < |sent| <= |old(sent)| + MaxRetries
      ensures retryCount == old(retryCount)[zone := 0]
      ensures routed ==> lastRoutedZone == zone && lastRoutedGate == gate
      ensures !routed ==> lastRoutedZone == old(lastRoutedZone) && lastRoutedGate == old(lastRoutedGate)
      decreases MaxRetries - RetriesOf(retryCount, zone), 0
    {
      ghost var retries := RetriesOf(retryCount, zone);
      var success := SendGateCommand(gate);

      if success {
        lastRoutedZone := zone;
        lastRoutedGate := gate;
        retryCount := retryCount[zone := 0];
        return true;
      }

      var failures := CountFailure(zone);
      if failures < MaxRetries {
        ghost var rest := Attempts(gateOk, |old(sent)| + 1, retries + 1);
        routed := RoutePackage(Some(zone));
        CommandsCons(old(sent), gate, rest.0);
        return routed;
      }

      retryCount := retryCount[zone := 0];
      return false;
    }
  }

  /** From a controller between calls, one call sends at most MaxRetries gate
      commands, and it fails only if every one of them failed. */
  lemma OneCallIsBounded(gateOk: nat -> bool, n: nat, retryCount: map<string, int>, zone: string)
    requires forall z :: z in retryCount ==> retryCount[z] == 0
    ensures var (a, s) := Attempts(gateOk, n, RetriesOf(retryCount, zone));
            && 1 <= a <= MaxRetries
            && (!s ==> a == MaxRetries && true !in Window(gateOk, n, MaxRetries))
  {
    AttemptsMeaning(gateOk, n, RetriesOf(retryCount, zone));
  }

  /** The sorting tests: known zones route to their gates, and an unknown zone
      is refused. */
  method SortingScenarios()
  {
    var sorter := new SortingController(_ => true);
    assert !IsWhiteSpace("ZoneA"[0]) && !IsWhiteSpace("ZoneB"[0]);
    var a := sorter.RoutePackage(Some("ZoneA"));
    assert a && sorter.lastRoutedGate == "Gate1";
    var b := sorter.RoutePackage(Some("ZoneB"));
    assert b && sorter.lastRoutedZone == "ZoneB" && sorter.lastRoutedGate == "Gate2";
    assert !IsWhiteSpace("ZoneZ"[0]);
    var z := sorter.RoutePackage(Some("ZoneZ"));
    assert !z && sorter.lastRoutedZone == "ZoneB";
  }

  /** A gate that always fails is given up after three commands, and the
      zone's retry count is back to 0. */
  method FailingGateScenario()
  {
    var failing := new SortingController(_ => false);
    assert !IsWhiteSpace("ZoneC"[0]);
    var c := failing.RoutePackage(Some("ZoneC"));
    assert !c && |failing.sent| == 3 && failing.retryCount["ZoneC"] == 0;
    assert failing.lastRoutedZone == "" && failing.lastRoutedGate == "";
  }
}
