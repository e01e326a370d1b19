/** FanController: a cooling fan switched by temperature with hysteresis.
    Temperatures are exact reals here; the source uses doubles. */
module Fan {
  import opened DotNet

  /** The fan state after one reading: from off, only a reading strictly above
      the on-threshold switches it on; from on, only a reading strictly below
      the off-threshold switches it off; anything else keeps the state. */
  function NextIsOn(isOn: bool, t: real, onThreshold: real, offThreshold: real): (r: bool)
    ensures !isOn ==> (r <==> t > onThreshold)
    ensures isOn ==> (r <==> t >= offThreshold)
  {
    if !isOn && t > onThreshold then true
    else if isOn && t < offThreshold then false
    else isOn
  }

  /** The fan states after each reading of `temps`, starting from `isOn`. */
  function Trace(isOn: bool, temps: seq<real>, onThreshold: real, offThreshold: real): (r: seq<bool>)
    ensures |r| == |temps|
    decreases |temps|
  {
    if temps == [] then []
    else
      var next := NextIsOn(isOn, temps[0], onThreshold, offThreshold);
      [next] + Trace(next, temps[1..], onThreshold, offThreshold)
  }

  /** Readings inside the band [offThreshold, onThreshold] never switch the fan:
      the whole trace keeps the starting state. */
  lemma {:induction false} BandKeepsState(isOn: bool, temps: seq<real>, onThreshold: real, offThreshold: real)
    requires forall i :: 0 <= i < |temps| ==> offThreshold <= temps[i] <= onThreshold
    ensures forall i :: 0 <= i < |temps| ==> Trace(isOn, temps, onThreshold, offThreshold)[i] == isOn
    decreases |temps|
  {
    if temps != [] {
      BandKeepsState(isOn, temps[1..], onThreshold, offThreshold);
      var r := Trace(isOn, temps, onThreshold, offThreshold);
      forall i | 0 <= i < |temps| ensures r[i] == isOn {
        if i > 0 {
          assert r[i] == Trace(isOn, temps[1..], onThreshold, offThreshold)[i - 1];
        }
      }
    }
  }

  /** Every switch in a trace is explained by a threshold crossing: the fan
      switches on only at a reading above the on-threshold and off only at a
      reading below the off-threshold, and after every reading an on fan has
      seen at least the off-threshold and an off fan at most the on-threshold. */
  lemma {:induction false} TraceSwitchesOnlyAcrossThresholds(isOn: bool, temps: seq<real>, onThreshold: real, offThreshold: real)
    requires offThreshold < onThreshold
    ensures var r := Trace(isOn, temps, onThreshold, offThreshold);
            forall i :: 0 <= i < |temps| ==>
              (r[i] ==> temps[i] >= offThreshold) &&
              (!r[i] ==> temps[i] <= onThreshold) &&
              (r[i] != (if i == 0 then isOn else r[i - 1]) ==>
                 if r[i] then temps[i] > onThreshold else temps[i] < offThreshold)
    decreases |temps|
  {
    if temps != [] {
      var next := NextIsOn(isOn, temps[0], onThreshold, offThreshold);
      TraceSwitchesOnlyAcrossThresholds(next, temps[1..], onThreshold, offThreshold);
      var r := Trace(isOn, temps, onThreshold, offThreshold);
      var rest := Trace(next, temps[1..], onThreshold, offThreshold);
      assert r == [next] + rest;
    }
  }

  /** The rising and falling sequence 24, 29, 31, 28, 24 with thresholds 30 and 25. */
  lemma RisingAndFalling()
    ensures Trace(false, [24.0, 29.0, 31.0, 28.0, 24.0], 30.0, 25.0) == [false, false, true, true, false]
  {
  }

  class FanController {
    const onThreshold: real
    const offThreshold: real
    var isOn: bool
    var currentTemperature: real

    /** The thresholds leave a hysteresis band, and an on fan has never seen a
        reading below the off-threshold as its last one. */
    ghost predicate Valid()
      reads this
    {
      offThreshold < onThreshold && (isOn ==> currentTemperature >= offThreshold)
    }

    constructor (onThreshold: real, offThreshold: real)
      requires offThreshold < onThreshold
      ensures Valid()
      ensures this.onThreshold == onThreshold && this.offThreshold == offThreshold
      ensures !isOn && currentTemperature == 0.0
    {
      this.onThreshold := onThreshold;
      this.offThreshold := offThreshold;
      isOn := false;
      currentTemperature := 0.0;
    }

    method UpdateTemperature(temperature: real)
      requires Valid()
      modifies this
      ensures Valid()
      ensures currentTemperature == temperature
      ensures isOn == NextIsOn(old(isOn), temperature, onThreshold, offThreshold)
      ensures !isOn ==> temperature <= onThreshold
    {
      currentTemperature := temperature;
      if !isOn && temperature > onThreshold {
        isOn := true;
      } else if isOn && temperature < offThreshold {
        isOn := false;
      }
    }
  }

  /** The constructor's argument check: thresholds without a band are refused
      (the source throws ArgumentException); otherwise a new controller is off. */
  method NewFanController(onThreshold: real, offThreshold: real) returns (r: Option<FanController>)
    ensures r.None? <==> offThreshold >= onThreshold
    ensures r.Some? ==> fresh(r.value) && r.value.Valid() && !r.value.isOn
    ensures r.Some? ==> r.value.onThreshold == onThreshold && r.value.offThreshold == offThreshold
  {
    if offThreshold >= onThreshold {
      return None;
    }
    var fan := new FanController(onThreshold, offThreshold);
    return Some(fan);
  }

  /** The unit-test sequences: exactly at the on-threshold stays off, and the hysteresis round trip. */
  method FanScenarios()
  {
    var created := NewFanController(30.0, 25.0);
    assert created.Some?;
    var fan := created.value;
    fan.UpdateTemperature(30.0);
    assert !fan.isOn;
    fan.UpdateTemperature(31.0);
    assert fan.isOn;
    fan.UpdateTemperature(26.0);
    assert fan.isOn;
    fan.UpdateTemperature(24.9);
    assert !fan.isOn && fan.currentTemperature == 24.9;
    var refused := NewFanController(25.0, 25.0);
    assert refused.None?;
  }
}
