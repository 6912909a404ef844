# Lucid sleep engine, modelled in Dafny

Lucid is a smartwatch app (`app/index.js`) that watches a sleeper's heart rate
and movement. In Night mode it records one heart-rate sample and one squared
acceleration magnitude per tick. It reduces every five samples to three
statistics rounded to a tenth: the mean heart rate, the heart-rate variance and
the acceleration variance. It keeps the statistics in three parallel arrays and
writes all three to storage once 1080 values are held. A REM-sleep detector is
meant to vibrate the watch when the latest statistics look like REM sleep, at
most once an hour; as written it never fires (see "## Findings"). In Day mode a
"reality check" vibration fires on a 3% random draw.

The model has seven modules:

- `Js`: the pieces of JavaScript semantics the app depends on.
  - `undefined` for an out-of-range array index.
  - Comparisons against `undefined`, which are false.
  - The sign-of-dividend `%`.
  - `slice` with clamped and negative indices.
  - `Math.round`.
- `Stats`: `getAverage`, `getStandardDeviation` (a population variance: no
  square root is taken) and the rounding to one decimal place. All on exact reals.
- `Format`: the date and time tokens, the clock label, the flush keys and the
  filename filter of the directory listing.
- `Modes`: the Day/Night classification.
- `Detector`: the REM-sleep test, both as written and as evidently intended,
  plus the hour gate and the cooldown.
- `LogList`: `logLongList` as a loop that returns the printed slices.
- `Engine`: the globals of the app as the fields of the class `SleepEngine`,
  with `updateTimeAndMode`, `randomVibrations`, `recordMeasures` and
  `estimateSleepStage` as its methods.
  - Instead of being performed, storage writes are recorded in the field
    `flushes` and night vibrations in the field `vibrations`.
  - The ghost field `emitted` lists every statistic computed so far.
  - The invariant `Valid` ties these together. The window holds fewer than
    five samples. The counter is three per statistic and stays below 1080.
    Every written batch holds 360 statistics. The written batches followed by
    the current batch are exactly `emitted`. Night vibrations are at least an
    hour apart.

Clock readings, the random draw and sensor values are parameters. A
`DateTime` holds what `new Date()` reports, and `now` holds `Date.now()` in
milliseconds.

The app has no handling of a missing sensor reading and no configuration
checks: its constants are fixed. Day mode is the hours from 9 up to 10.

## Model

| member | source | states |
|---|---|---|
| Js.Rem | app/index.js:163 | JavaScript's `%` for a positive divisor: in `[0, b)` for a non-negative dividend, in `(-b, 0]` for a negative one |
| Js.RemIsRemainder | app/index.js:163 | `a` minus `Rem(a, b)` is a multiple of `b`; with the sign and range of `Rem`, this is JavaScript's truncated remainder and no other |
| Js.RemSmallNegative | app/index.js:163 | a dividend in `(-b, 0)` is its own JavaScript remainder, while Dafny's `%` gives it plus `b` |
| Js.At | app/index.js:164-166 | array indexing: a value exactly for an index inside the array (and then that element), `undefined` otherwise, `-1` included |
| Js.SliceIndex | app/index.js:212 | a resolved `slice` index never exceeds the length |
| Js.Slice | app/index.js:212 | `slice(b, e)` with a start inside the array takes the elements from `b` up to `e`, cut off at the length; with a negative start `-k` and the end at the length, it takes the last `k` elements, or all of them if there are fewer; never longer than the array |
| Js.AtMost | app/index.js:164 | `x <= t` where `x` may be `undefined`: true only for a defined value at most `t`; the detector lemmas rely on this |
| Js.AtLeast | app/index.js:165 | `x >= t` where `x` may be `undefined`: true only for a defined value at least `t` |
| Js.Round | app/index.js:118-120 | `Math.round(x)` is the integer `r` with `r - 1/2 <= x < r + 1/2` |
| Js.RoundUnique | app/index.js:118-120 | that integer is unique: any `k` with `k - 1/2 <= x < k + 1/2` is `Math.round(x)` |
| Stats.Sum | app/index.js:155 | the `reduce((a, b) => a + b)` sum, folding from the left; its bounds are in `SumBounds` and `SumConstant` |
| Stats.Average | app/index.js:154-156 | `getAverage`: the sum over the length, defined for a non-empty array only; its bounds are in `AverageBounds` |
| Stats.RoundTenth | app/index.js:118-120 | `Math.round(v * 10) / 10`, also applied by the `map` at line 210; its meaning is stated in `RoundTenthNearest` and `RoundTenthIdempotent` |
| Stats.SquaredDeviations | app/index.js:151 | the sum of squared deviations is never negative |
| Stats.Variance | app/index.js:148-152 | `getStandardDeviation`, the mean squared deviation from the mean, is never negative |
| Stats.RoundTenthNearest | app/index.js:118-120 | `Math.round(v * 10) / 10` is within a twentieth of `v` (halves up) and lies on the one-decimal grid |
| Stats.RoundTenthIdempotent | app/index.js:118-120 | rounding an already rounded value to a tenth changes nothing |
| Stats.SumBounds | app/index.js:155 | the `reduce` sum of `n` values in `[lo, hi]` lies in `[n * lo, n * hi]` |
| Stats.AverageBounds | app/index.js:154-156 | `getAverage` lies between any lower and upper bound of the samples |
| Stats.SumConstant | app/index.js:155 | the sum of `n` copies of `c` is `n * c` |
| Stats.SquaredDeviationsOfConstant | app/index.js:151 | samples all equal to the mean have zero squared deviation |
| Stats.ConstantWindow | app/index.js:148-156 | a window of identical samples has that sample as its mean and zero variance |
| Stats.FiveSampleExample | app/index.js:148-156 | heart rates 60, 62, 64, 66, 68 give mean 64 and variance 8, both unchanged by the rounding |
| Format.NatToString | app/index.js:102 | a number written into a string is a non-empty run of decimal digits with no leading zero |
| Format.NatToStringRoundTrip | app/index.js:102 | reading the digits back gives the number |
| Format.NatToStringInjective | app/index.js:102 | different numbers are written differently |
| Format.CurrentDate | app/index.js:100-103 | `getCurrentDate`: day, month counted from 1, and year joined by `_`; injectivity is in `CurrentDateInjective` |
| Format.CurrentTime | app/index.js:105-108 | `getCurrentTime`: `<h>h<m>m<s>`; injectivity is in `CurrentTimeInjective` |
| Format.ClockText | app/index.js:74 | the time label text `<hours>:<minutes>` |
| Format.FlushKey | app/index.js:133-135 | the key `<date>_<record_start>_<current_time>_<suffix>`; distinctness is in `FlushKeysDistinct` |
| Format.FileFilter | app/index.js:220 | the listing test with the two `slice` comparisons; its meaning is in `FileFilterIsPrefixAndSuffix` |
| Format.CurrentTimeInjective | app/index.js:105-108 | `getCurrentTime` tokens of two readings are equal only when hours, minutes and seconds agree |
| Format.CurrentDateInjective | app/index.js:99-103 | `getCurrentDate` tokens of two readings are equal only when day, month and year agree |
| Format.FlushKeysDistinct | app/index.js:133-135 | the three series of one batch go under three different keys |
| Format.SliceTestIsPrefixAndSuffix | app/index.js:220 | for a non-empty suffix pattern, the two `slice` comparisons are exactly "starts with the prefix and ends with the suffix" |
| Format.FileFilterIsPrefixAndSuffix | app/index.js:220 | the listing filter keeps exactly the names that start with `19_11_2020` and end with `acc_std_measures.json` |
| Format.FileFilterOnDatePrefix | app/index.js:220 | on a name starting with the date pattern, the filter decides on the last 21 characters alone |
| Format.DateOfThatNight | app/index.js:22 | the date token of 19 November 2020 (month 10 counted from 0) is the filter's `19_11_2020` |
| Format.FilterKeepsAccelerationKey | app/index.js:220 | any name built as date pattern, middle part and acceleration suffix passes the filter |
| Format.FilterRejectsShorterSuffix | app/index.js:220 | with a middle part ending in `_` and a 20-character suffix, the filter rejects the name |
| Format.FilterKeepsAccelerationFilesOfThatNight | app/index.js:133-135 | of the three files written on 19 November 2020, the filter keeps the acceleration one and skips both heart-rate ones, whatever the batch's start and end |
| Modes.ModeOf | app/index.js:77-78 | the mode assigned to an hour is Day or Night |
| Modes.ModeName | app/index.js:16 | `modes[mode]` is `"Day"` for 0 and `"Night"` for 1 |
| Modes.ModeLabel | app/index.js:82 | the mode label text `"Mode: " + modes[mode]`; that the two differ is in `ModeLabelsDiffer` |
| Modes.ModeOfClassifies | app/index.js:77-78 | Day exactly for `9 <= hour < night_mode_starts`, Night exactly otherwise |
| Modes.DayIsTheNineOClockHour | app/index.js:20 | over the hours of a day, Day mode is the single hour 9 |
| Modes.ModeLabelsDiffer | app/index.js:82 | the two mode labels differ, so a refresh always shows the change |
| Detector.HourGateAsWritten | app/index.js:163 | the gate `((hours - 3) % 24) <= 7` with JavaScript's remainder; its hours are in `HourGateAsWrittenHours` |
| Detector.HourGateIntended | app/index.js:162-163 | the same gate with a true modulo, as the comment at line 33 asks; its hours are in `HourGateIntendedHours` |
| Detector.Fires | app/index.js:160-167 | the decision on the mode, the gate and three looked-up statistics that may be `undefined`, and the cooldown; its conditions are in `FiresOnlyIfAllConditions` |
| Detector.FiresAsWritten | app/index.js:160-167 | the decision with the `[-1]` lookups and the written gate; that it never holds is `AsWrittenNeverFires` |
| Detector.FiresIntended | app/index.js:160-167 | the decision with the last elements and the intended gate; characterised by `FiresIntendedIff` |
| Detector.HourGateAsWrittenHours | app/index.js:163 | with JavaScript's remainder, the gate `((h - 3) % 24) <= 7` holds for hours 0 to 10 and fails for 11 to 23 |
| Detector.HourGateIntendedHours | app/index.js:33 | with a true modulo, the gate holds exactly for hours 3 to 10, as "vibrate only after 3am" asks |
| Detector.HourGateDiscrepancy | app/index.js:163 | hour 1 passes the gate as written and fails the intended one |
| Detector.FiresOnlyIfAllConditions | app/index.js:160-167 | the detector fires only in Night mode, with the gate open, all three thresholds met by defined values and the hour of cooldown elapsed |
| Detector.AsWrittenNeverFires | app/index.js:164-166 | as written, with the `[-1]` lookups, the detector never fires |
| Detector.Latest | app/index.js:164-166 | the latest element: defined exactly for a non-empty array, and then the last one |
| Detector.FiresIntendedIff | app/index.js:158-171 | the intended detector fires exactly when in Night mode, between 3:00 and 10:59, the latest statistics meet all three thresholds and an hour has passed |
| Detector.IntendedFiresWhereWrittenDoesNot | app/index.js:163-167 | on one calm, elevated-heart-rate window at 4 a.m. the intended detector fires and the written one does not |
| Detector.BelowHeartRateThresholdNeverFires | app/index.js:165 | a latest mean heart rate of 69.9 alone keeps the detector silent |
| Detector.NeverFiresInDayMode | app/index.js:160 | neither reading fires in Day mode |
| Detector.SpacedApartAllPairs | app/index.js:167-170 | when each night vibration is an hour after the one before, any two are at least an hour apart |
| LogList.RoundAll | app/index.js:210 | the map keeps the length and rounds each element to a tenth |
| LogList.LogLongList | app/index.js:208-214 | prints `ceil(n / 40)` slices, each of 1 to 40 elements, which joined together are the rounded list |
| Engine.Flushed | app/index.js:131-135 | everything written holds 360 statistics per batch |
| Engine.FlushedBatch | app/index.js:129-141 | batch `k` is exactly statistics `360k` up to `360(k+1)` of everything written: batches neither overlap nor leave gaps |
| Engine.FlushedAppend | app/index.js:131-135 | writing one more full batch appends its 360 statistics to everything written |
| Engine.WindowStatOf | app/index.js:118-121 | the three rounded statistics of one full window: mean heart rate, heart-rate variance, acceleration variance |
| Engine.RealityCheck | app/index.js:90 | the reality-check decision: Day mode and a draw below 0.03; `RandomVibrations` fires exactly on it |
| Engine.StimuliExclusive | app/index.js:90 | the reality check and the night detector (either reading) are never enabled together |
| Engine.SleepEngine.FlushHoldsItsWindows | app/index.js:125-141 | under the invariant, written batch `k` holds exactly the statistics `360k` up to `360(k+1)` computed so far, in order |
| Engine.SleepEngine.Valid | app/index.js:36-47 | the invariant over the globals: known modes, a window of fewer than five samples, three parallel series of equal length with `memory_state` three per entry and below 1080, full written batches that with the current batch make up every statistic computed, and night vibrations an hour apart |
| Engine.SleepEngine.constructor | app/index.js:36-47 | the globals at load time: modes unset, everything empty, counters zero, `record_start` the current time token, no vibration yet; the invariant holds |
| Engine.SleepEngine.UpdateTimeAndMode | app/index.js:70-85 | the mode is the classification of the hour and `previous_mode` follows it; the time label text is `hours:minutes`; a mode label text is returned exactly when the mode changed, and it names the new mode |
| Engine.SleepEngine.RandomVibrations | app/index.js:88-97 | vibrates exactly on `RealityCheck`, Day mode and a draw below 0.03, and then shows "Are you dreaming?" |
| Engine.SleepEngine.RecordMeasures | app/index.js:111-145 | keeps the invariant. Outside Night mode nothing changes. A sample joins a window that is not full. The fifth sample turns the window into one statistic of those five samples. That statistic joins the batch below 1080, or completes it: a flush is recorded with the three keys and the full series, `record_start` becomes its end token, and the batch empties |
| Engine.SleepEngine.TakeSample | app/index.js:113-115 | both readings are appended to the window and the count goes up by one |
| Engine.SleepEngine.ReduceWindow | app/index.js:117-126 | a full window becomes one statistic appended to each series and to `emitted`; the window empties and the counter goes up by 3, keeping the batch accounting |
| Engine.SleepEngine.WriteBatch | app/index.js:129-141 | a full batch is recorded as a flush under `date_start_end_suffix` keys with the three series; `record_start` becomes the end token and the series and counter reset, keeping the batch accounting |
| Engine.SleepEngine.Detect | app/index.js:160-171 | fires exactly when the decision holds; a firing records the vibration at `now` and nothing else changes; the invariant and the hour spacing are kept |
| Engine.SleepEngine.EstimateSleepStage | app/index.js:159-174 | as written: the result is the `[-1]` decision, which is always false, and no state changes |
| Engine.SleepEngine.EstimateSleepStageIntended | app/index.js:159-174 | as intended: fires exactly on the latest-statistics decision, only an hour or more after the previous vibration, and records it |

## Left out

- Sensor drivers (`HeartRateSensor`, `Accelerometer`): the heart rate and the
  already rounded squared acceleration magnitude are inputs of `RecordMeasures`.
- Actuators and UI: `vibration.start`, `display.on`, the label elements and the
  `setTimeout` that clears the reality-check text. The methods return the
  label texts and whether to vibrate, and night vibrations are recorded in
  `vibrations`.
- `fs.writeFileSync`: recorded as a `FlushEvent` instead of being performed.
- `console.log`: `LogLongList` returns the printed slices instead of
  printing them.
- The `listDirSync` iterator loop: only the filename test of each name is
  modelled, as `FileFilter`.
- `setInterval` scheduling and `me.appTimeoutEnabled`: the model is a sequence
  of method calls, with no timers and no concurrency.
- `Math.random`, `new Date()` and `Date.now()` are parameters.
  `estimateSleepStage` calls `Date.now()` twice; a single `now` stands for both.
- `recordMeasures` reads the clock four times when it writes a batch: once in
  `getCurrentTime()` (line 132) and once in each `getCurrentDate()` (lines
  133-135). A single clock reading `now` stands for all four, so in the model
  the three keys of one batch always share a date. The source does not
  guarantee this for a write that straddles midnight.
- The `updateTimeAndMode()` call made at load time (line 58) is left to the
  caller: the constructor only sets up the globals, as lines 36-47 do.
- A `writeFileSync` that throws is not modelled. In the source it skips the
  reset at lines 137-141, so the next Night-mode call writes again under a new
  end token, with series that may have grown past 360 statistics. In the model
  every write succeeds and every batch holds exactly 360 statistics.
- IEEE-754 floating point: averages, variances, `**` and rounding are on exact
  reals.
- Stats.ConstantWindow: only the direction "constant samples give zero
  variance" is proved. The converse, that zero variance means constant
  samples, is not stated, because it needs nonlinear reasoning on real squares
  that the solver does not carry out here.
- A heart-rate reading that is `null` (no reading yet) is not modelled: the
  samples are integers.

## Findings

| source | as written | input that shows it | evidently intended | confidence | as-written member | corrected member |
|---|---|---|---|---|---|---|
| app/index.js:164-166 | `acc_std_measures[-1]`, `hr_avg_measures[-1]` and `hr_std_measures[-1]` read `undefined`, and every comparison with `undefined` is false | any state; for example, in Night mode at 4 a.m. with latest statistics 1.0, 75.0 and 5.0 and an hour since the last vibration, the detector stays silent | compare the last element of each array | high (proved; not executed) | Detector.AsWrittenNeverFires | Detector.FiresIntendedIff |
| app/index.js:163 | `((hours - 3) % 24) <= 7` with JavaScript's sign-of-dividend `%` gives a negative value for hours 0 to 2, which passes | hour 1: `(1 - 3) % 24` is `-2`, which is `<= 7` | open the gate only from 3:00 to 10:59, as the comment "Vibrate only after 3am" says | high (proved; not executed) | Detector.HourGateAsWrittenHours | Detector.HourGateIntendedHours |
