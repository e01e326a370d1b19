/** EnergyReporter.ComputeFromSamples and CalculateEnergyScore: a report over
    fan/temperature samples taken at a fixed interval. Temperatures, seconds,
    percentages and the score are exact reals here; the source uses doubles. */
module Energy {
  import opened DotNet

  datatype EnergySample = EnergySample(temperature: real, fanOn: bool)

  datatype EnergyReport = EnergyReport(
    averageTemperature: real,
    averageFanRuntimeSeconds: real,
    totalFanOnSeconds: real,
    fanOnPercent: real,
    energyScore: real,
    timestamp: string)

  // ---------------------------------------------------------------------
  // Specification functions
  // ---------------------------------------------------------------------

  function FanFlags(samples: seq<EnergySample>): (flags: seq<bool>)
    ensures |flags| == |samples|
    ensures forall i :: 0 <= i < |samples| ==> flags[i] == samples[i].fanOn
  {
    seq(|samples|, i requires 0 <= i < |samples| => samples[i].fanOn)
  }

  function SumTemperatures(samples: seq<EnergySample>): real
    decreases |samples|
  {
    if samples == [] then 0.0
    else SumTemperatures(samples[..|samples| - 1]) + samples[|samples| - 1].temperature
  }

  /** The number of samples with the fan on. */
  function OnCount(flags: seq<bool>): nat
    decreases |flags|
  {
    if flags == [] then 0
    else OnCount(flags[..|flags| - 1]) + (if flags[|flags| - 1] then 1 else 0)
  }

  function Sum(s: seq<nat>): nat
    decreases |s|
  {
    if s == [] then 0 else Sum(s[..|s| - 1]) + s[|s| - 1]
  }

  /** The state of the foreach loop after reading `flags`: the ON streaks
      already closed by an OFF sample, and the length of the streak still open. */
  function Scan(flags: seq<bool>): (closedAndOpen: (seq<nat>, nat))
    decreases |flags|
  {
    if flags == [] then ([], 0)
    else
      var (closed, open) := Scan(flags[..|flags| - 1]);
      if flags[|flags| - 1] then (closed, open + 1)
      else if open > 0 then (closed + [open], 0)
      else (closed, 0)
  }

  /** The ON streaks: the closed ones, then the one still open at the end, if any. */
  function Streaks(flags: seq<bool>): seq<nat>
  {
    var (closed, open) := Scan(flags);
    if open > 0 then closed + [open] else closed
  }

  /** The number of ON samples at the end of `flags`. */
  function TrailingOn(flags: seq<bool>): (t: nat)
    ensures t <= |flags|
    decreases |flags|
  {
    if flags == [] || !flags[|flags| - 1] then 0
    else TrailingOn(flags[..|flags| - 1]) + 1
  }

  /** The lengths of the maximal runs of ON samples, in order: the run that
      ends the sequence, if any, is its trailing ON block, and the runs before
      it are those of what precedes that block. */
  function MaximalRuns(flags: seq<bool>): seq<nat>
    decreases |flags|
  {
    if flags == [] then []
    else if !flags[|flags| - 1] then MaximalRuns(flags[..|flags| - 1])
    else
      var t := TrailingOn(flags);
      MaximalRuns(flags[..|flags| - t]) + [t]
  }

  /** Where a maximal run of ON samples begins: an ON sample that is first or follows an OFF one. */
  predicate RunStartsAt(flags: seq<bool>, i: int)
    requires 0 <= i < |flags|
  {
    flags[i] && (i == 0 || !flags[i - 1])
  }

  function RunStarts(flags: seq<bool>): nat
    decreases |flags|
  {
    if flags == [] then 0
    else RunStarts(flags[..|flags| - 1]) + (if RunStartsAt(flags, |flags| - 1) then 1 else 0)
  }

  // ---------------------------------------------------------------------
  // What the streaks are
  // ---------------------------------------------------------------------

  lemma {:induction false} OnCountBounded(flags: seq<bool>)
    ensures OnCount(flags) <= |flags|
    ensures OnCount(flags) == 0 <==> forall i :: 0 <= i < |flags| ==> !flags[i]
    decreases |flags|
  {
    if flags != [] {
      var init := flags[..|flags| - 1];
      OnCountBounded(init);
      assert forall i :: 0 <= i < |init| ==> init[i] == flags[i];
    }
  }

  /** Loop-state facts: every closed streak is positive, the closed streaks plus the
      open one add up to the ON samples, the open streak is non-zero exactly when
      the last sample is ON, and there is one streak per run start. */
  lemma {:induction false} ScanFacts(flags: seq<bool>)
    ensures var (closed, open) := Scan(flags);
            && (forall k :: 0 <= k < |closed| ==> closed[k] > 0)
            && Sum(closed) + open == OnCount(flags)
            && (open > 0 <==> flags != [] && flags[|flags| - 1])
            && |closed| + (if open > 0 then 1 else 0) == RunStarts(flags)
    decreases |flags|
  {
    if flags != [] {
      var init := flags[..|flags| - 1];
      ScanFacts(init);
      var (closed, open) := Scan(init);
      if !flags[|flags| - 1] && open > 0 {
        assert (closed + [open])[..|closed|] == closed;
      }
      if |flags| >= 2 {
        assert init[|init| - 1] == flags[|flags| - 2];
      }
    }
  }

  /** The loop state is the maximal runs so far: the open streak is the
      trailing ON block, and the closed streaks are the runs before it. */
  lemma {:induction false} ScanIsRuns(flags: seq<bool>)
    ensures Scan(flags).1 == TrailingOn(flags)
    ensures Scan(flags).0 == MaximalRuns(flags[..|flags| - TrailingOn(flags)])
    decreases |flags|
  {
    if flags != [] {
      var init := flags[..|flags| - 1];
      ScanIsRuns(init);
      var o := TrailingOn(init);
      assert init[..|init| - o] == flags[..|flags| - 1 - o];
      if !flags[|flags| - 1] {
        assert flags[..|flags|] == flags;
        if o > 0 {
          assert init != [] && init[|init| - 1];
        } else {
          assert init[..|init|] == init;
        }
      }
    }
  }

  /** The streaks are the maximal ON runs, in order; so each is positive,
      there is one per run start, and together they hold every ON sample. */
  lemma {:induction false} StreaksAreMaximalRuns(flags: seq<bool>)
    ensures Streaks(flags) == MaximalRuns(flags)
    ensures forall k :: 0 <= k < |Streaks(flags)| ==> Streaks(flags)[k] > 0
    ensures |Streaks(flags)| == RunStarts(flags)
    ensures Sum(Streaks(flags)) == OnCount(flags)
  {
    ScanFacts(flags);
    ScanIsRuns(flags);
    var (closed, open) := Scan(flags);
    if open > 0 {
      assert (closed + [open])[..|closed|] == closed;
    } else {
      assert flags[..|flags|] == flags;
    }
  }

  /** ON, ON, OFF, ON has the runs 2 and 1, in that order. */
  lemma {:induction false} RunsExample()
    ensures MaximalRuns([true, true, false, true]) == [2, 1]
  {
    var f := [true, true, false, true];
    assert f[..3] == [true, true, false] && f[..3][..2] == [true, true];
    assert f[..3][..2][..1] == [true] && f[..3][..2][..1][..0] == [];
    assert TrailingOn(f[..3][..2][..1]) == 1;
    assert TrailingOn(f[..3][..2]) == 2;
    assert TrailingOn(f[..3]) == 0;
    assert TrailingOn(f) == 1;
    assert MaximalRuns(f[..3][..2]) == [2] by {
      assert f[..3][..2][..2 - 2] == [];
    }
    assert MaximalRuns(f[..3]) == [2];
  }

  lemma {:induction false} NoStreaksIffNeverOn(flags: seq<bool>)
    ensures Streaks(flags) == [] <==> OnCount(flags) == 0
  {
    StreaksAreMaximalRuns(flags);
    if Streaks(flags) != [] {
      var s := Streaks(flags);
      SumOfPositive(s);
    }
  }

  lemma {:induction false} SumOfPositive(s: seq<nat>)
    requires s != [] && forall k :: 0 <= k < |s| ==> s[k] > 0
    ensures Sum(s) > 0
    decreases |s|
  {
    if |s| > 1 {
      SumOfPositive(s[..|s| - 1]);
    }
  }

  // ---------------------------------------------------------------------
  // The report
  // ---------------------------------------------------------------------

  /** CalculateEnergyScore: 100 minus the degrees above 22 minus half the fan-on
      percentage, clamped into [0, 100]. */
  function CalculateEnergyScore(avgTemp: real, fanPercent: real): (score: real)
    ensures 0.0 <= score <= 100.0
    ensures var raw := 100.0 - (avgTemp - 22.0) - fanPercent / 2.0;
            (0.0 <= raw <= 100.0 ==> score == raw) &&
            (raw < 0.0 ==> score == 0.0) &&
            (raw > 100.0 ==> score == 100.0)
  {
    var score := 100.0 - (avgTemp - 22.0) - fanPercent / 2.0;
    if score < 0.0 then 0.0 else if score > 100.0 then 100.0 else score
  }

  /** The fan-on percentage of `on` samples out of `count`. */
  function FanPercent(on: nat, count: nat): real
    requires count > 0
  {
    on as real / count as real * 100.0
  }

  /** The average ON-streak runtime in seconds, 0 when there is no streak. */
  function AverageRuntime(streaks: seq<nat>, interval: real): real
  {
    if |streaks| > 0 then Sum(streaks) as real / |streaks| as real * interval else 0.0
  }

  /** The report of a non-empty sample list at a positive interval. */
  function Report(samples: seq<EnergySample>, interval: real, timestamp: string): (r: EnergyReport)
    requires samples != []
    ensures r.timestamp == timestamp
    ensures r.energyScore == CalculateEnergyScore(r.averageTemperature, r.fanOnPercent)
    ensures 0.0 <= r.energyScore <= 100.0
  {
    var flags := FanFlags(samples);
    var avgTemp := SumTemperatures(samples) / |samples| as real;
    var percent := FanPercent(OnCount(flags), |samples|);
    EnergyReport(
      avgTemp,
      AverageRuntime(Streaks(flags), interval),
      OnCount(flags) as real * interval,
      percent,
      CalculateEnergyScore(avgTemp, percent),
      timestamp)
  }

  /** a / m, scaled by k and multiplied back by m, gives a * k. */
  lemma {:induction false} ShareTimesCount(a: real, m: real, k: real)
    requires m > 0.0
    ensures a / m * k * m == a * k
  {
    assert a / m * m == a;
    calc {
      a / m * k * m;
      (a / m * m) * k;
      a * k;
    }
  }

  lemma {:induction false} ShareBounded(a: real, m: real)
    requires 0.0 <= a <= m && m > 0.0
    ensures 0.0 <= a / m * 100.0 <= 100.0
  {
    assert a / m * m == a;
    assert a / m <= 1.0;
  }

  lemma {:induction false} ShareProductPositive(a: real, m: real, k: real)
    requires a > 0.0 && m > 0.0 && k > 0.0
    ensures a / m * k > 0.0
  {
  }

  lemma {:induction false} PercentInRange(on: nat, count: nat)
    requires 0 < count && on <= count
    ensures 0.0 <= FanPercent(on, count) <= 100.0
  {
    ShareBounded(on as real, count as real);
  }

  lemma {:induction false} RuntimeSharesOnTime(streaks: seq<nat>, interval: real, on: nat)
    requires Sum(streaks) == on
    requires streaks == [] ==> on == 0
    ensures AverageRuntime(streaks, interval) * |streaks| as real == on as real * interval
  {
    if streaks != [] {
      ShareTimesCount(Sum(streaks) as real, |streaks| as real, interval);
    }
  }

  lemma {:induction false} RuntimePositive(streaks: seq<nat>, interval: real)
    requires Sum(streaks) > 0 && interval > 0.0
    ensures AverageRuntime(streaks, interval) > 0.0
  {
    ShareProductPositive(Sum(streaks) as real, |streaks| as real, interval);
  }

  /** The report's fan-on percentage lies in [0, 100]. */
  lemma {:induction false} ReportPercentBounded(samples: seq<EnergySample>, interval: real, timestamp: string)
    requires samples != []
    ensures 0.0 <= Report(samples, interval, timestamp).fanOnPercent <= 100.0
  {
    var flags := FanFlags(samples);
    ReportFields(samples, interval, timestamp);
    OnCountBounded(flags);
    PercentInRange(OnCount(flags), |samples|);
  }

  /** The report's on-time lies between 0 and the sampled time. */
  lemma {:induction false} ReportOnTimeBounded(samples: seq<EnergySample>, interval: real, timestamp: string)
    requires samples != [] && interval > 0.0
    ensures 0.0 <= Report(samples, interval, timestamp).totalFanOnSeconds
    ensures Report(samples, interval, timestamp).totalFanOnSeconds <= |samples| as real * interval
  {
    ReportFields(samples, interval, timestamp);
    OnCountBounded(FanFlags(samples));
    OnTimeBounded(OnCount(FanFlags(samples)), |samples|, interval, Report(samples, interval, timestamp).totalFanOnSeconds);
  }

  lemma {:induction false} OnTimeBounded(on: nat, count: nat, interval: real, total: real)
    requires on <= count && interval > 0.0 && total == on as real * interval
    ensures 0.0 <= total <= count as real * interval
  {
    ScaleMonotone(on, count, interval);
  }

  /** The fields of a report that the bounds speak of, named. */
  lemma {:induction false} ReportFields(samples: seq<EnergySample>, interval: real, timestamp: string)
    requires samples != []
    ensures Report(samples, interval, timestamp).fanOnPercent == FanPercent(OnCount(FanFlags(samples)), |samples|)
    ensures Report(samples, interval, timestamp).totalFanOnSeconds == OnCount(FanFlags(samples)) as real * interval
    ensures Report(samples, interval, timestamp).averageFanRuntimeSeconds == AverageRuntime(Streaks(FanFlags(samples)), interval)
  {
  }

  /** The report's average runtime is 0 exactly when the fan was never on, and
      otherwise it is the total on-time shared out over the ON streaks. */
  lemma {:induction false} ReportRuntime(samples: seq<EnergySample>, interval: real, timestamp: string)
    requires samples != [] && interval > 0.0
    ensures Report(samples, interval, timestamp).averageFanRuntimeSeconds == 0.0 <==> OnCount(FanFlags(samples)) == 0
    ensures Report(samples, interval, timestamp).averageFanRuntimeSeconds * |Streaks(FanFlags(samples))| as real
            == Report(samples, interval, timestamp).totalFanOnSeconds
  {
    var flags := FanFlags(samples);
    ReportFields(samples, interval, timestamp);
    assert Report(samples, interval, timestamp).averageFanRuntimeSeconds == 0.0 <==> OnCount(flags) == 0 by {
      RuntimeZeroIffNeverOn(flags, interval);
    }
    assert Report(samples, interval, timestamp).averageFanRuntimeSeconds * |Streaks(flags)| as real
           == Report(samples, interval, timestamp).totalFanOnSeconds by {
      RuntimeTimesStreaksIsOnTime(flags, interval);
    }
  }

  /** The average runtime is 0 exactly when the fan was never on. */
  lemma {:induction false} RuntimeZeroIffNeverOn(flags: seq<bool>, interval: real)
    requires interval > 0.0
    ensures AverageRuntime(Streaks(flags), interval) == 0.0 <==> OnCount(flags) == 0
  {
    var streaks := Streaks(flags);
    StreaksAreMaximalRuns(flags);
    NoStreaksIffNeverOn(flags);
    if streaks != [] {
      RuntimePositive(streaks, interval);
    }
  }

  /** The average runtime is the total on-time shared out over the ON streaks. */
  lemma {:induction false} RuntimeTimesStreaksIsOnTime(flags: seq<bool>, interval: real)
    ensures AverageRuntime(Streaks(flags), interval) * |Streaks(flags)| as real == OnCount(flags) as real * interval
  {
    StreaksSumIsOnCount(flags);
    RuntimeSharesOnTime(Streaks(flags), interval, OnCount(flags));
  }

  lemma {:induction false} StreaksSumIsOnCount(flags: seq<bool>)
    ensures Sum(Streaks(flags)) == OnCount(flags)
    ensures Streaks(flags) == [] ==> OnCount(flags) == 0
  {
    StreaksAreMaximalRuns(flags);
    NoStreaksIffNeverOn(flags);
  }

  lemma {:induction false} ScaleMonotone(a: nat, b: nat, k: real)
    requires a <= b && k > 0.0
    ensures 0.0 <= a as real * k <= b as real * k
  {
    assert 0.0 <= a as real <= b as real;
    assert (b as real - a as real) * k >= 0.0;
  }

  /** The unit-test example: temperatures 25, 26, 27, 28 with the fan off, on, on,
      off at one-second samples give 26.5 degrees, 2 s on, an average run of 2 s,
      50 % and a score of 70.5. */
  lemma {:induction false} WorkedExample(timestamp: string)
    ensures Report([EnergySample(25.0, false), EnergySample(26.0, true),
                    EnergySample(27.0, true), EnergySample(28.0, false)], 1.0, timestamp)
            == EnergyReport(26.5, 2.0, 2.0, 50.0, 70.5, timestamp)
  {
    var samples := [EnergySample(25.0, false), EnergySample(26.0, true),
                    EnergySample(27.0, true), EnergySample(28.0, false)];
    var flags := FanFlags(samples);
    assert flags == [false, true, true, false];
    assert flags[..3] == [false, true, true] && flags[..3][..2] == [false, true];
    assert flags[..3][..2][..1] == [false] && flags[..3][..2][..1][..0] == [];
    assert Scan(flags[..3][..2][..1]) == ([], 0);
    assert Scan(flags[..3][..2]) == ([], 1);
    assert Scan(flags[..3]) == ([], 2);
    assert flags[..|flags| - 1] == flags[..3];
    assert Scan(flags) == ([] + [2], 0);
    assert [] + [2] == [2];
    assert OnCount(flags[..3][..2][..1]) == 0;
    assert OnCount(flags[..3][..2]) == 1;
    assert OnCount(flags[..3]) == 2;
    assert OnCount(flags) == 2;
    assert Sum([2]) == 2 by { assert [2][..0] == []; }
    assert samples[..3][..2][..1][..0] == [];
    assert SumTemperatures(samples[..3][..2][..1]) == 25.0;
    assert SumTemperatures(samples[..3][..2]) == 51.0;
    assert SumTemperatures(samples[..3]) == 78.0;
    assert SumTemperatures(samples) == 106.0;
  }

  // ---------------------------------------------------------------------
  // The computation
  // ---------------------------------------------------------------------

  /** ComputeFromSamples: the argument checks in the source's order, then one
      pass counting ON samples and collecting the ON streaks. */
  method ComputeFromSamples(samples: Option<seq<EnergySample>>, sampleIntervalSeconds: real, now: string)
    returns (r: Result<EnergyReport>)
    ensures samples.None? ==> r == Throws(ArgumentNullException)
    ensures samples.Some? && samples.value == [] ==> r == Throws(ArgumentException)
    ensures samples.Some? && samples.value != [] && sampleIntervalSeconds <= 0.0 ==>
              r == Throws(ArgumentOutOfRangeException)
    ensures samples.Some? && samples.value != [] && sampleIntervalSeconds > 0.0 ==>
              r == Ok(Report(samples.value, sampleIntervalSeconds, now))
  {
    if samples.None? {
      return Throws(ArgumentNullException);
    }
    var s := samples.value;
    if |s| == 0 {
      return Throws(ArgumentException);
    }
    if sampleIntervalSeconds <= 0.0 {
      return Throws(ArgumentOutOfRangeException);
    }

    var avgTemp := SumTemperatures(s) / |s| as real;

    var onSamples: nat := 0;
    var streaks: seq<nat> := [];
    var currentStreak: nat := 0;
    ghost var flags := FanFlags(s);
    for i := 0 to |s|
      invariant onSamples == OnCount(flags[..i])
      invariant (streaks, currentStreak) == Scan(flags[..i])
    {
      assert flags[..i + 1][..i] == flags[..i];
      if s[i].fanOn {
        onSamples := onSamples + 1;
        currentStreak := currentStreak + 1;
      } else {
        if currentStreak > 0 {
          streaks := streaks + [currentStreak];
          currentStreak := 0;
        }
      }
    }
    assert flags[..|s|] == flags;
    if currentStreak > 0 {
      streaks := streaks + [currentStreak];
    }
    assert flags == FanFlags(samples.value);
    assert streaks == Streaks(flags);
    assert onSamples == OnCount(flags);
    assert Report(s, sampleIntervalSeconds, now) ==
           EnergyReport(avgTemp, AverageRuntime(streaks, sampleIntervalSeconds),
                        onSamples as real * sampleIntervalSeconds, FanPercent(onSamples, |s|),
                        CalculateEnergyScore(avgTemp, FanPercent(onSamples, |s|)), now);

    var totalOnSeconds := onSamples as real * sampleIntervalSeconds;
    var avgRuntimeSeconds := AverageRuntime(streaks, sampleIntervalSeconds);
    var fanPercent := FanPercent(onSamples, |s|);
    var score := CalculateEnergyScore(avgTemp, fanPercent);
    return Ok(EnergyReport(avgTemp, avgRuntimeSeconds, totalOnSeconds, fanPercent, score, now));
  }
}
