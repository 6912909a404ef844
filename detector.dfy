/** The REM-sleep test of `estimateSleepStage`: Night mode, an hour-of-night
    gate, three thresholds on the latest windowed statistics and a cooldown
    since the last night vibration. As written, the source reads the latest
    statistics with `array[-1]`, which JavaScript answers with `undefined`; the
    test is modelled that way (`FiresAsWritten`) and next to the evidently
    intended reading of the last element (`FiresIntended`). */
module Detector {
  import opened Js
  import opened Modes

  const STD_ACC_THRESHOLD: real := 4.0
  const AVG_HR_THRESHOLD: real := 70.0
  const STD_HR_THRESHOLD: real := 10.0
  const HOURS_THRESHOLD := 3
  /** `vibration_time_diff`: one hour in milliseconds. */
  const VIBRATION_TIME_DIFF := 60 * 60 * 1000

  /** The gate `((hours - hours_threshold) % 24) <= 7` with JavaScript's `%`. */
  predicate HourGateAsWritten(hours: int)
  {
    Rem(hours - HOURS_THRESHOLD, 24) <= 7
  }

  /** The same gate with the wrap-around the comment "vibrate only after 3am"
      asks for: the shifted hour taken modulo 24 into `0..23`. */
  predicate HourGateIntended(hours: int)
  {
    (hours - HOURS_THRESHOLD) % 24 <= 7
  }

  /** With JavaScript's remainder the gate is open from midnight to 10:59:
      the hours before 3 give a negative remainder, which passes `<= 7`. */
  lemma HourGateAsWrittenHours(hours: int)
    requires 0 <= hours < 24
    ensures HourGateAsWritten(hours) <==> hours <= 10
  {
    if hours < HOURS_THRESHOLD {
      RemSmallNegative(hours - HOURS_THRESHOLD, 24);
    }
  }

  /** With a true modulo the gate is open from 3:00 to 10:59 only. */
  lemma HourGateIntendedHours(hours: int)
    requires 0 <= hours < 24
    ensures HourGateIntended(hours) <==> HOURS_THRESHOLD <= hours <= 10
  {
    if hours < HOURS_THRESHOLD {
      RemSmallNegative(hours - HOURS_THRESHOLD, 24);
    }
  }

  /** One o'clock at night passes the gate as written, not the intended one. */
  lemma HourGateDiscrepancy()
    ensures HourGateAsWritten(1) && !HourGateIntended(1)
  {
    RemSmallNegative(-2, 24);
  }

  /** The decision itself, on the three looked-up statistics (any of which may
      be `undefined`), the state of the gate and the time `now` in
      milliseconds. */
  predicate Fires(mode: int, gateOpen: bool, accStd: Option<real>, hrAvg: Option<real>, hrStd: Option<real>,
                  now: int, previousVibration: int)
  {
    && mode == NIGHT
    && gateOpen
    && AtMost(accStd, STD_ACC_THRESHOLD)
    && AtLeast(hrAvg, AVG_HR_THRESHOLD)
    && AtMost(hrStd, STD_HR_THRESHOLD)
    && now - previousVibration >= VIBRATION_TIME_DIFF
  }

  /** The test as the source writes it: the statistic arrays read at `-1`. */
  predicate FiresAsWritten(mode: int, hours: int, accStds: seq<real>, hrAvgs: seq<real>, hrStds: seq<real>,
                           now: int, previousVibration: int)
  {
    Fires(mode, HourGateAsWritten(hours), At(accStds, -1), At(hrAvgs, -1), At(hrStds, -1), now, previousVibration)
  }

  /** The most recently appended element, `undefined` for an empty array. */
  function Latest(s: seq<real>): (r: Option<real>)
    ensures r.Some? <==> |s| > 0
    ensures |s| > 0 ==> r.value == s[|s| - 1]
  {
    if |s| == 0 then None else Some(s[|s| - 1])
  }

  /** The test as evidently intended: the latest statistics, and the gate with
      a true modulo. */
  predicate FiresIntended(mode: int, hours: int, accStds: seq<real>, hrAvgs: seq<real>, hrStds: seq<real>,
                          now: int, previousVibration: int)
  {
    Fires(mode, HourGateIntended(hours), Latest(accStds), Latest(hrAvgs), Latest(hrStds), now, previousVibration)
  }

  /** Every condition is necessary: a firing means Night mode, an open gate, all
      three thresholds met by defined values, and a full cooldown elapsed. */
  lemma FiresOnlyIfAllConditions(mode: int, gateOpen: bool, accStd: Option<real>, hrAvg: Option<real>,
                                 hrStd: Option<real>, now: int, previousVibration: int)
    requires Fires(mode, gateOpen, accStd, hrAvg, hrStd, now, previousVibration)
    ensures mode == NIGHT && gateOpen
    ensures accStd.Some? && accStd.value <= STD_ACC_THRESHOLD
    ensures hrAvg.Some? && hrAvg.value >= AVG_HR_THRESHOLD
    ensures hrStd.Some? && hrStd.value <= STD_HR_THRESHOLD
    ensures now - previousVibration >= VIBRATION_TIME_DIFF
  {
  }

  /** As written, the detector never fires: `array[-1]` is `undefined` and
      every comparison with it is false. */
  lemma AsWrittenNeverFires(mode: int, hours: int, accStds: seq<real>, hrAvgs: seq<real>, hrStds: seq<real>,
                            now: int, previousVibration: int)
    ensures !FiresAsWritten(mode, hours, accStds, hrAvgs, hrStds, now, previousVibration)
  {
  }

  /** The intended detector fires exactly when, in Night mode between 3:00 and
      10:59, the latest acceleration variance is at most 4, the latest mean
      heart rate at least 70, the latest heart-rate variance at most 10, and an
      hour has passed since the last night vibration. */
  lemma FiresIntendedIff(mode: int, hours: int, accStds: seq<real>, hrAvgs: seq<real>, hrStds: seq<real>,
                         now: int, previousVibration: int)
    requires 0 <= hours < 24
    ensures FiresIntended(mode, hours, accStds, hrAvgs, hrStds, now, previousVibration)
        <==> (&& mode == NIGHT
              && HOURS_THRESHOLD <= hours <= 10
              && |accStds| > 0 && accStds[|accStds| - 1] <= STD_ACC_THRESHOLD
              && |hrAvgs| > 0 && hrAvgs[|hrAvgs| - 1] >= AVG_HR_THRESHOLD
              && |hrStds| > 0 && hrStds[|hrStds| - 1] <= STD_HR_THRESHOLD
              && now - previousVibration >= VIBRATION_TIME_DIFF)
  {
    HourGateIntendedHours(hours);
  }

  /** The two readings differ: on one window of calm, elevated-heart-rate
      statistics at 4 a.m. the intended detector fires and the written one
      does not. */
  lemma IntendedFiresWhereWrittenDoesNot()
    ensures FiresIntended(NIGHT, 4, [1.0], [75.0], [5.0], VIBRATION_TIME_DIFF, 0)
    ensures !FiresAsWritten(NIGHT, 4, [1.0], [75.0], [5.0], VIBRATION_TIME_DIFF, 0)
  {
  }

  /** A latest mean heart rate of 69.9 alone keeps the detector silent,
      whatever the other statistics and times. */
  lemma BelowHeartRateThresholdNeverFires(mode: int, hours: int, accStds: seq<real>, hrAvgs: seq<real>,
                                          hrStds: seq<real>, now: int, previousVibration: int)
    requires |hrAvgs| > 0 && hrAvgs[|hrAvgs| - 1] == 69.9
    ensures !FiresIntended(mode, hours, accStds, hrAvgs, hrStds, now, previousVibration)
  {
  }

  /** Neither reading of the test fires outside Night mode. */
  lemma NeverFiresInDayMode(hours: int, accStds: seq<real>, hrAvgs: seq<real>, hrStds: seq<real>,
                            now: int, previousVibration: int)
    ensures !FiresAsWritten(DAY, hours, accStds, hrAvgs, hrStds, now, previousVibration)
    ensures !FiresIntended(DAY, hours, accStds, hrAvgs, hrStds, now, previousVibration)
  {
  }

  /** Successive night-vibration times, each at least the cooldown after the
      one before. */
  ghost predicate SpacedApart(times: seq<int>)
  {
    forall i :: 0 < i < |times| ==> times[i] - times[i - 1] >= VIBRATION_TIME_DIFF
  }

  /** Spacing between neighbours gives spacing between any two vibrations,
      with no assumption that the clock is monotonic. */
  lemma {:induction false} SpacedApartAllPairs(times: seq<int>, i: int, j: int)
    requires SpacedApart(times)
    requires 0 <= i < j < |times|
    ensures times[j] - times[i] >= VIBRATION_TIME_DIFF
    decreases j - i
  {
    if i + 1 < j {
      SpacedApartAllPairs(times, i, j - 1);
      assert times[j] - times[j - 1] >= VIBRATION_TIME_DIFF;
    }
  }
}
