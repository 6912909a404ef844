/** The monitoring engine: the globals of the app as the fields of one object,
    and the timer callbacks as its methods. Sensors, clock and random draws are
    parameters; the writes of a batch and the night vibrations are recorded in
    the `flushes` and `vibrations` fields instead of being performed. */
module Engine {
  import opened Js
  import opened Stats
  import opened Format
  import opened Modes
  import opened Detector

  /** `window_transform_measures`: samples reduced into one windowed statistic. */
  const WINDOW_TRANSFORM_MEASURES := 5
  /** `max_memory_size`: the batch is written once this many values are held. */
  const MAX_MEMORY_SIZE := 1080
  /** Windowed statistics per written batch: `max_memory_size` counts three
      values for each. */
  const BATCH_WINDOWS := 360

  const REALITY_CHECK_PROBABILITY: real := 0.03
  const REALITY_CHECK_TEXT := "Are you dreaming?"

  /** One windowed statistic: the mean heart rate and the variances of the heart
      rate and of the squared acceleration, each rounded to a tenth. */
  datatype WindowStat = WindowStat(hrAvg: real, hrStd: real, accStd: real)

  /** The statistic `recordMeasures` computes from a full window. */
  function WindowStatOf(hr: seq<int>, acc: seq<int>): WindowStat
    requires |hr| > 0 && |acc| > 0
  {
    WindowStat(RoundTenth(Average(hr)), RoundTenth(Variance(hr)), RoundTenth(Variance(acc)))
  }

  /** Three index-aligned series read as one sequence of statistics. */
  function Zip(hrAvg: seq<real>, hrStd: seq<real>, accStd: seq<real>): (r: seq<WindowStat>)
    requires |hrAvg| == |hrStd| == |accStd|
    ensures |r| == |hrAvg|
    ensures forall k :: 0 <= k < |r| ==> r[k] == WindowStat(hrAvg[k], hrStd[k], accStd[k])
  {
    seq(|hrAvg|, k requires 0 <= k < |hrAvg| => WindowStat(hrAvg[k], hrStd[k], accStd[k]))
  }

  /** The three `fs.writeFileSync` calls of one batch: a key and a series each. */
  datatype FlushEvent = FlushEvent(hrAvgKey: string, hrStdKey: string, accStdKey: string,
                                   hrAvg: seq<real>, hrStd: seq<real>, accStd: seq<real>)

  predicate FullBatch(f: FlushEvent)
  {
    |f.hrAvg| == BATCH_WINDOWS && |f.hrStd| == BATCH_WINDOWS && |f.accStd| == BATCH_WINDOWS
  }

  predicate AllFullBatches(fs: seq<FlushEvent>)
  {
    forall k :: 0 <= k < |fs| ==> FullBatch(fs[k])
  }

  /** Every statistic written so far, batch after batch. */
  function Flushed(fs: seq<FlushEvent>): (r: seq<WindowStat>)
    requires AllFullBatches(fs)
    ensures |r| == BATCH_WINDOWS * |fs|
  {
    if |fs| == 0 then []
    else
      var f := fs[|fs| - 1];
      Flushed(fs[..|fs| - 1]) + Zip(f.hrAvg, f.hrStd, f.accStd)
  }

  /** Batch `k` holds exactly the statistics `360 * k` up to `360 * (k + 1)` of
      everything written: batches neither overlap nor leave gaps. */
  lemma {:induction false} FlushedBatch(fs: seq<FlushEvent>, k: int)
    requires AllFullBatches(fs)
    requires 0 <= k < |fs|
    ensures Flushed(fs)[BATCH_WINDOWS * k..BATCH_WINDOWS * (k + 1)] == Zip(fs[k].hrAvg, fs[k].hrStd, fs[k].accStd)
  {
    var init := fs[..|fs| - 1];
    var last := fs[|fs| - 1];
    assert AllFullBatches(init) by {
      forall j | 0 <= j < |init| ensures FullBatch(init[j]) {
        assert init[j] == fs[j];
      }
    }
    var a, b := Flushed(init), Zip(last.hrAvg, last.hrStd, last.accStd);
    assert Flushed(fs) == a + b;
    if k < |fs| - 1 {
      FlushedBatch(init, k);
      assert init[k] == fs[k];
      SliceOfConcatLeft(a, b, BATCH_WINDOWS * k, BATCH_WINDOWS * (k + 1));
    } else {
      assert BATCH_WINDOWS * k == |a|;
      assert (a + b)[|a|..] == b;
    }
  }

  /** Writing one more full batch appends its statistics to everything
      written. */
  lemma FlushedAppend(fs: seq<FlushEvent>, f: FlushEvent)
    requires AllFullBatches(fs) && FullBatch(f)
    ensures AllFullBatches(fs + [f])
    ensures Flushed(fs + [f]) == Flushed(fs) + Zip(f.hrAvg, f.hrStd, f.accStd)
  {
    assert (fs + [f])[..|fs|] == fs;
  }

  lemma SliceOfConcatLeft<T>(a: seq<T>, b: seq<T>, i: int, j: int)
    requires 0 <= i <= j <= |a|
    ensures (a + b)[i..j] == a[i..j]
  {
  }

  /** The reality check of `randomVibrations`: fires in Day mode on a draw
      below the probability. */
  predicate RealityCheck(mode: int, draw: real)
  {
    mode == DAY && draw < REALITY_CHECK_PROBABILITY
  }

  /** The day stimulus and the night detector are never enabled together. */
  lemma StimuliExclusive(mode: int, draw: real, hours: int, accStds: seq<real>, hrAvgs: seq<real>,
                         hrStds: seq<real>, now: int, previousVibration: int)
    ensures !(RealityCheck(mode, draw) && FiresAsWritten(mode, hours, accStds, hrAvgs, hrStds, now, previousVibration))
    ensures !(RealityCheck(mode, draw) && FiresIntended(mode, hours, accStds, hrAvgs, hrStds, now, previousVibration))
  {
  }

  class SleepEngine {
    var mode: int
    var previousMode: int
    /** The current window of heart rates and squared acceleration magnitudes. */
    var hrMeasures: seq<int>
    var accMeasures: seq<int>
    var nMeasures: int
    /** The current batch: three parallel series of windowed statistics. */
    var hrAvgMeasures: seq<real>
    var hrStdMeasures: seq<real>
    var accStdMeasures: seq<real>
    var memoryState: int
    /** The time token at which the current batch began. */
    var recordStart: string
    /** Time of the last night vibration, in milliseconds. */
    var previousVibration: int
    /** Every batch written so far. */
    var flushes: seq<FlushEvent>
    /** The times of every night vibration so far. */
    var vibrations: seq<int>
    /** Every windowed statistic computed so far, in order. */
    ghost var emitted: seq<WindowStat>

    /** The current batch as one sequence of statistics. */
    function Batch(): seq<WindowStat>
      reads this
      requires |hrAvgMeasures| == |hrStdMeasures| == |accStdMeasures|
    {
      Zip(hrAvgMeasures, hrStdMeasures, accStdMeasures)
    }

    /** The engine's invariant: the modes are known values, the window holds
        fewer than five samples, the batch counter is three per statistic and
        stays below the bound, every written batch holds 360 statistics, what was
        written followed by the current batch is everything computed so far, and
        the night vibrations respect the cooldown. */
    ghost predicate Valid()
      reads this
    {
      && ModesKnown()
      && nMeasures == |hrMeasures| == |accMeasures| < WINDOW_TRANSFORM_MEASURES
      && BatchAccounted()
      && memoryState < MAX_MEMORY_SIZE
      && VibrationsSpaced()
    }

    ghost predicate ModesKnown()
      reads this`mode, this`previousMode
    {
      && (mode == UNSET || mode == DAY || mode == NIGHT)
      && (previousMode == UNSET || previousMode == DAY || previousMode == NIGHT)
    }

    /** Night vibrations respect the cooldown, and the last one is the one the
        detector compares against. */
    ghost predicate VibrationsSpaced()
      reads this`vibrations, this`previousVibration
    {
      && SpacedApart(vibrations)
      && (|vibrations| > 0 ==> vibrations[|vibrations| - 1] == previousVibration)
    }

    /** The part of the invariant that holds between the steps of
        `recordMeasures` too: the counter is three per statistic, and nothing
        computed is lost or repeated. */
    ghost predicate BatchAccounted()
      reads this
    {
      && |hrAvgMeasures| == |hrStdMeasures| == |accStdMeasures|
      && memoryState == 3 * |hrAvgMeasures|
      && AllFullBatches(flushes)
      && Flushed(flushes) + Batch() == emitted
    }

    /** Under the invariant, written batch `k` holds exactly the statistics
        `360 * k` up to `360 * (k + 1)` computed so far, in order. */
    lemma FlushHoldsItsWindows(k: int)
      requires Valid()
      requires 0 <= k < |flushes|
      ensures BATCH_WINDOWS * (k + 1) <= |emitted|
      ensures emitted[BATCH_WINDOWS * k..BATCH_WINDOWS * (k + 1)]
           == Zip(flushes[k].hrAvg, flushes[k].hrStd, flushes[k].accStd)
    {
      FlushedBatch(flushes, k);
      SliceOfConcatLeft(Flushed(flushes), Batch(), BATCH_WINDOWS * k, BATCH_WINDOWS * (k + 1));
    }

    /** The globals as the app sets them up at load time; `start` is the clock
        reading taken for `record_start`. */
    constructor (start: DateTime)
      ensures Valid()
      ensures mode == UNSET && previousMode == UNSET
      ensures hrMeasures == [] && accMeasures == [] && nMeasures == 0
      ensures hrAvgMeasures == [] && hrStdMeasures == [] && accStdMeasures == [] && memoryState == 0
      ensures recordStart == CurrentTime(start) && previousVibration == 0
      ensures flushes == [] && vibrations == [] && emitted == []
    {
      mode, previousMode := UNSET, UNSET;
      hrMeasures, accMeasures, nMeasures := [], [], 0;
      hrAvgMeasures, hrStdMeasures, accStdMeasures, memoryState := [], [], [], 0;
      recordStart := CurrentTime(start);
      previousVibration := 0;
      flushes, vibrations := [], [];
      emitted := [];
    }

    /** `updateTimeAndMode`: classifies the hour, and returns the time label
        text and, only when the mode changed, the new mode label text. */
    method UpdateTimeAndMode(now: DateTime) returns (timeText: string, modeText: Option<string>)
      requires Valid()
      modifies this`mode, this`previousMode
      ensures Valid()
      ensures mode == ModeOf(now.hours) && previousMode == mode
      ensures timeText == ClockText(now)
      ensures modeText.Some? <==> old(previousMode) != mode
      ensures modeText.Some? ==> modeText.value == ModeLabel(mode)
    {
      timeText := ClockText(now);
      if now.hours >= DAY_MODE_STARTS && now.hours < NIGHT_MODE_STARTS {
        mode := DAY;
      } else {
        mode := NIGHT;
      }
      if previousMode != mode {
        modeText := Some(ModeLabel(mode));
        previousMode := mode;
      } else {
        modeText := None;
      }
    }

    /** `randomVibrations`: the reality check, on a draw of `Math.random()`.
        Returns whether to vibrate and the message shown. */
    method RandomVibrations(draw: real) returns (vibrate: bool, message: Option<string>)
      ensures vibrate == RealityCheck(mode, draw)
      ensures message == if vibrate then Some(REALITY_CHECK_TEXT) else None
    {
      if mode == DAY && draw < REALITY_CHECK_PROBABILITY {
        vibrate, message := true, Some(REALITY_CHECK_TEXT);
      } else {
        vibrate, message := false, None;
      }
    }

    /** `recordMeasures` on one heart rate `hr` and one rounded squared
        acceleration magnitude `acc`, with `now` the clock reading used for the
        batch keys. */
    method RecordMeasures(hr: int, acc: int, now: DateTime)
      requires Valid()
      modifies this`hrMeasures, this`accMeasures, this`nMeasures, this`hrAvgMeasures, this`hrStdMeasures,
               this`accStdMeasures, this`memoryState, this`recordStart, this`flushes, this`emitted
      // The invariant, part by part and then whole.
      ensures ModesKnown()
      ensures nMeasures == |hrMeasures| == |accMeasures| < WINDOW_TRANSFORM_MEASURES
      ensures BatchAccounted()
      ensures memoryState < MAX_MEMORY_SIZE
      ensures VibrationsSpaced()
      ensures Valid()
      // Outside Night mode nothing changes.
      ensures old(mode) != NIGHT ==> unchanged(this)
      // A window that is not yet full takes the sample.
      ensures old(mode) == NIGHT && old(nMeasures) + 1 < WINDOW_TRANSFORM_MEASURES ==>
        && hrMeasures == old(hrMeasures) + [hr] && accMeasures == old(accMeasures) + [acc]
        && nMeasures == old(nMeasures) + 1
        && hrAvgMeasures == old(hrAvgMeasures) && hrStdMeasures == old(hrStdMeasures)
        && accStdMeasures == old(accStdMeasures) && memoryState == old(memoryState)
        && recordStart == old(recordStart) && flushes == old(flushes) && emitted == old(emitted)
      // The fifth sample closes the window: one statistic of those five samples.
      ensures old(mode) == NIGHT && old(nMeasures) + 1 == WINDOW_TRANSFORM_MEASURES ==>
        && hrMeasures == [] && accMeasures == [] && nMeasures == 0
        && emitted == old(emitted) + [WindowStatOf(old(hrMeasures) + [hr], old(accMeasures) + [acc])]
      // ... which joins the batch while the batch holds fewer than 360,
      ensures old(mode) == NIGHT && old(nMeasures) + 1 == WINDOW_TRANSFORM_MEASURES
              && old(memoryState) + 3 < MAX_MEMORY_SIZE ==>
        var w := WindowStatOf(old(hrMeasures) + [hr], old(accMeasures) + [acc]);
        && hrAvgMeasures == old(hrAvgMeasures) + [w.hrAvg]
        && hrStdMeasures == old(hrStdMeasures) + [w.hrStd]
        && accStdMeasures == old(accStdMeasures) + [w.accStd]
        && memoryState == old(memoryState) + 3
        && recordStart == old(recordStart) && flushes == old(flushes)
      // ... and otherwise completes it: the batch is written and a new one begins.
      ensures old(mode) == NIGHT && old(nMeasures) + 1 == WINDOW_TRANSFORM_MEASURES
              && old(memoryState) + 3 >= MAX_MEMORY_SIZE ==>
        var w := WindowStatOf(old(hrMeasures) + [hr], old(accMeasures) + [acc]);
        var date, end := CurrentDate(now), CurrentTime(now);
        && flushes == old(flushes) + [FlushEvent(
             FlushKey(date, old(recordStart), end, HR_AVG_SUFFIX),
             FlushKey(date, old(recordStart), end, HR_STD_SUFFIX),
             FlushKey(date, old(recordStart), end, ACC_STD_SUFFIX),
             old(hrAvgMeasures) + [w.hrAvg], old(hrStdMeasures) + [w.hrStd], old(accStdMeasures) + [w.accStd])]
        && recordStart == end
        && hrAvgMeasures == [] && hrStdMeasures == [] && accStdMeasures == [] && memoryState == 0
    {
      if mode == NIGHT {
        TakeSample(hr, acc);
        if nMeasures >= WINDOW_TRANSFORM_MEASURES {
          ReduceWindow();
        }
        if memoryState >= MAX_MEMORY_SIZE {
          WriteBatch(now);
        }
      }
    }

    /** The sampling step of `recordMeasures`: the two readings join the window. */
    method TakeSample(hr: int, acc: int)
      requires nMeasures == |hrMeasures| == |accMeasures|
      modifies this`hrMeasures, this`accMeasures, this`nMeasures
      ensures hrMeasures == old(hrMeasures) + [hr] && accMeasures == old(accMeasures) + [acc]
      ensures nMeasures == old(nMeasures) + 1 == |hrMeasures| == |accMeasures|
    {
      hrMeasures := hrMeasures + [hr];
      accMeasures := accMeasures + [acc];
      nMeasures := nMeasures + 1;
    }

    /** The reduction step of `recordMeasures`: a full window becomes one
        statistic appended to the batch, and the window starts again. */
    method ReduceWindow()
      requires BatchAccounted()
      requires nMeasures == |hrMeasures| == |accMeasures| == WINDOW_TRANSFORM_MEASURES
      modifies this`hrMeasures, this`accMeasures, this`nMeasures, this`hrAvgMeasures, this`hrStdMeasures,
               this`accStdMeasures, this`memoryState, this`emitted
      ensures BatchAccounted()
      ensures hrMeasures == [] && accMeasures == [] && nMeasures == 0
      ensures var w := WindowStatOf(old(hrMeasures), old(accMeasures));
        && hrAvgMeasures == old(hrAvgMeasures) + [w.hrAvg]
        && hrStdMeasures == old(hrStdMeasures) + [w.hrStd]
        && accStdMeasures == old(accStdMeasures) + [w.accStd]
        && emitted == old(emitted) + [w]
      ensures memoryState == old(memoryState) + 3
    {
      var w := WindowStatOf(hrMeasures, accMeasures);
      ghost var batch := Batch();
      hrAvgMeasures := hrAvgMeasures + [RoundTenth(Average(hrMeasures))];
      hrStdMeasures := hrStdMeasures + [RoundTenth(Variance(hrMeasures))];
      accStdMeasures := accStdMeasures + [RoundTenth(Variance(accMeasures))];
      assert Batch() == batch + [w];
      emitted := emitted + [w];

      hrMeasures := [];
      accMeasures := [];
      nMeasures := 0;
      memoryState := memoryState + 3;
    }

    /** The save step of `recordMeasures`: a full batch is written under keys
        naming the date, the batch's start and the current time, the next
        batch starts at the current time, and the series are cleared. */
    method WriteBatch(now: DateTime)
      requires BatchAccounted()
      requires memoryState == MAX_MEMORY_SIZE
      modifies this`hrAvgMeasures, this`hrStdMeasures, this`accStdMeasures, this`memoryState,
               this`recordStart, this`flushes
      ensures BatchAccounted()
      ensures var date, end := CurrentDate(now), CurrentTime(now);
        && flushes == old(flushes) + [FlushEvent(
             FlushKey(date, old(recordStart), end, HR_AVG_SUFFIX),
             FlushKey(date, old(recordStart), end, HR_STD_SUFFIX),
             FlushKey(date, old(recordStart), end, ACC_STD_SUFFIX),
             old(hrAvgMeasures), old(hrStdMeasures), old(accStdMeasures))]
        && recordStart == end
      ensures hrAvgMeasures == [] && hrStdMeasures == [] && accStdMeasures == [] && memoryState == 0
    {
      var currentTime := CurrentTime(now);
      var date := CurrentDate(now);
      var f := FlushEvent(
        FlushKey(date, recordStart, currentTime, HR_AVG_SUFFIX),
        FlushKey(date, recordStart, currentTime, HR_STD_SUFFIX),
        FlushKey(date, recordStart, currentTime, ACC_STD_SUFFIX),
        hrAvgMeasures, hrStdMeasures, accStdMeasures);
      FlushedAppend(flushes, f);
      flushes := flushes + [f];

      recordStart := currentTime;
      hrAvgMeasures := [];
      hrStdMeasures := [];
      accStdMeasures := [];
      memoryState := 0;
      assert Batch() == [];
    }

    /** The decision shared by both readings of `estimateSleepStage`: fires on
        the given gate and latest statistics, and records the vibration. */
    method Detect(gateOpen: bool, accStd: Option<real>, hrAvg: Option<real>, hrStd: Option<real>, now: int)
      returns (fired: bool)
      requires Valid()
      modifies this`previousVibration, this`vibrations
      ensures Valid()
      ensures fired == Fires(old(mode), gateOpen, accStd, hrAvg, hrStd, now, old(previousVibration))
      ensures fired ==> previousVibration == now && vibrations == old(vibrations) + [now]
      ensures !fired ==> previousVibration == old(previousVibration) && vibrations == old(vibrations)
    {
      fired := false;
      if mode == NIGHT {
        if && gateOpen
           && AtMost(accStd, STD_ACC_THRESHOLD)
           && AtLeast(hrAvg, AVG_HR_THRESHOLD)
           && AtMost(hrStd, STD_HR_THRESHOLD)
           && now - previousVibration >= VIBRATION_TIME_DIFF
        {
          vibrations := vibrations + [now];
          previousVibration := now;
          fired := true;
        }
      }
    }

    /** `estimateSleepStage` as written, at clock hour `hours` and time `now`
        in milliseconds: the statistics are read at index `-1`, so it never
        fires and changes nothing. */
    method EstimateSleepStage(hours: int, now: int) returns (fired: bool)
      requires Valid()
      modifies this`previousVibration, this`vibrations
      ensures Valid()
      ensures fired == FiresAsWritten(old(mode), hours, accStdMeasures, hrAvgMeasures, hrStdMeasures,
                                      now, old(previousVibration))
      ensures !fired
      ensures previousVibration == old(previousVibration) && vibrations == old(vibrations)
    {
      fired := Detect(HourGateAsWritten(hours), At(accStdMeasures, -1), At(hrAvgMeasures, -1),
                      At(hrStdMeasures, -1), now);
      AsWrittenNeverFires(old(mode), hours, accStdMeasures, hrAvgMeasures, hrStdMeasures,
                          now, old(previousVibration));
    }

    /** `estimateSleepStage` as evidently intended: the latest statistics of
        the batch, and the hour gate with a true modulo. A firing is at least
        `vibration_time_diff` after the previous one. */
    method EstimateSleepStageIntended(hours: int, now: int) returns (fired: bool)
      requires Valid()
      modifies this`previousVibration, this`vibrations
      ensures Valid()
      ensures fired == FiresIntended(old(mode), hours, accStdMeasures, hrAvgMeasures, hrStdMeasures,
                                     now, old(previousVibration))
      ensures fired ==> now - old(previousVibration) >= VIBRATION_TIME_DIFF
                        && previousVibration == now && vibrations == old(vibrations) + [now]
      ensures !fired ==> previousVibration == old(previousVibration) && vibrations == old(vibrations)
    {
      fired := Detect(HourGateIntended(hours), Latest(accStdMeasures), Latest(hrAvgMeasures),
                      Latest(hrStdMeasures), now);
    }
  }
}
