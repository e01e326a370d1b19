/** RoutingModel: barcode to zone lookup with an access log. Barcodes are
    upper-cased before the table lookup and before logging; the log maps a
    barcode to the time of its last lookup, an opaque string handed in by the
    caller. */
module Models {
  import opened DotNet

  const ZoneError := "ZoneError"

  /** The fixed barcode-to-zone table. */
  const RoutingTable: map<string, string> :=
    map["PKG-ABC123" := "ZoneA", "PKG-XYZ789" := "ZoneB", "PKG-LMN456" := "ZoneC"]

  /** The zone GetTargetZone answers for a barcode. */
  function ZoneOf(barcode: Option<string>): (zone: string)
    ensures IsNullOrWhiteSpace(barcode) ==> zone == ZoneError
    ensures !IsNullOrWhiteSpace(barcode) && ToUpperInvariant(barcode.value) in RoutingTable ==>
              zone == RoutingTable[ToUpperInvariant(barcode.value)]
    ensures !IsNullOrWhiteSpace(barcode) && ToUpperInvariant(barcode.value) !in RoutingTable ==>
              zone == ZoneError
  {
    if IsNullOrWhiteSpace(barcode) then ZoneError
    else
      var key := ToUpperInvariant(barcode.value);
      if key in RoutingTable then RoutingTable[key] else ZoneError
  }

  /** Every answer is one of the three zones or the error zone. */
  lemma ZoneIsKnownOrError(barcode: Option<string>)
    ensures ZoneOf(barcode) in {"ZoneA", "ZoneB", "ZoneC", ZoneError}
  {
  }

  /** The lookup ignores letter case: a barcode and its upper-cased form get the same zone. */
  lemma ZoneIgnoresCase(barcode: string)
    ensures ZoneOf(Some(barcode)) == ZoneOf(Some(ToUpperInvariant(barcode)))
  {
    UpperKeepsWhiteSpace(barcode);
    UpperIdempotent(barcode);
  }

  /** The lower-case test barcode pkg-abc123 is routed to ZoneA. */
  lemma LowerCaseBarcodeIsRouted()
    ensures ZoneOf(Some("pkg-abc123")) == "ZoneA"
  {
    assert !IsWhiteSpace("pkg-abc123"[0]);
    assert ToUpperInvariant("pkg-abc123") == "PKG-ABC123";
  }

  class RoutingModel {
    /** barcode (upper-cased) -> time of its last lookup */
    var routingLog: map<string, string>

    constructor ()
      ensures routingLog == map[]
    {
      routingLog := map[];
    }

    /** GetTargetZone: a blank barcode is an error and is not logged; any other
        barcode is looked up upper-cased, and its upper-cased form is logged
        with `now`, whether or not it is in the table. */
    method GetTargetZone(barcode: Option<string>, now: string) returns (zone: string)
      modifies this
      ensures zone == ZoneOf(barcode)
      ensures IsNullOrWhiteSpace(barcode) ==> routingLog == old(routingLog)
      ensures !IsNullOrWhiteSpace(barcode) ==>
                routingLog == old(routingLog)[ToUpperInvariant(barcode.value) := now]
      ensures old(routingLog).Keys <= routingLog.Keys
      ensures forall k :: k in old(routingLog) && (IsNullOrWhiteSpace(barcode) || k != ToUpperInvariant(barcode.value)) ==>
                routingLog[k] == old(routingLog)[k]
    {
      if IsNullOrWhiteSpace(barcode) {
        return ZoneError;
      }
      var key := ToUpperInvariant(barcode.value);
      zone := if key in RoutingTable then RoutingTable[key] else ZoneError;
      routingLog := routingLog[key := now];
    }

    /** HasLogEntry: the key is looked up exactly as given, without upper-casing;
        a null key makes the dictionary throw. */
    function HasLogEntry(barcode: Option<string>): (r: Result<bool>)
      reads this
      ensures barcode.None? ==> r == Throws(ArgumentNullException)
      ensures barcode.Some? ==> r == Ok(barcode.value in routingLog)
    {
      if barcode.None? then Throws(ArgumentNullException) else Ok(barcode.value in routingLog)
    }

    /** GetTimestamp: the logged time, or "" for a barcode never logged. */
    function GetTimestamp(barcode: Option<string>): (r: Result<string>)
      reads this
      ensures barcode.None? ==> r == Throws(ArgumentNullException)
      ensures barcode.Some? && barcode.value !in routingLog ==> r == Ok("")
      ensures barcode.Some? && barcode.value in routingLog ==> r == Ok(routingLog[barcode.value])
    {
      if barcode.None? then Throws(ArgumentNullException)
      else if barcode.value in routingLog then Ok(routingLog[barcode.value]) else Ok("")
    }
  }

  /** The routing model tests: known barcodes are routed and logged. */
  method RoutingModelScenarios()
  {
    var router := new RoutingModel();
    var stamp := "2025-01-01 12:00:00";
    assert !IsWhiteSpace("PKG-ABC123"[0]);
    assert ToUpperInvariant("PKG-ABC123") == "PKG-ABC123";
    var a := router.GetTargetZone(Some("PKG-ABC123"), stamp);
    assert a == "ZoneA";
    assert router.GetTimestamp(Some("PKG-ABC123")) == Ok(stamp);

    assert !IsWhiteSpace("PKG-XYZ789"[0]);
    assert ToUpperInvariant("PKG-XYZ789") == "PKG-XYZ789";
    var b := router.GetTargetZone(Some("PKG-XYZ789"), stamp);
    assert router.HasLogEntry(Some("PKG-XYZ789")) == Ok(true);
  }

  /** An empty barcode is an error, and a lower-case barcode is routed and
      logged under its upper-case form. */
  method RoutingModelEdgeScenarios()
  {
    var router := new RoutingModel();
    var stamp := "2025-01-01 12:00:00";
    var e := router.GetTargetZone(Some(""), stamp);
    assert e == ZoneError;

    LowerCaseBarcodeIsRouted();
    var lower := router.GetTargetZone(Some("pkg-abc123"), stamp);
    assert lower == "ZoneA";
    assert router.HasLogEntry(Some("pkg-abc123")) == Ok(false);
  }
}
