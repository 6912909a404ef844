/** The Day/Night classification of the wall-clock hour. The source keeps the
    mode as a number: -1 before the first classification, 0 for Day and 1 for
    Night (the index into `modes`). */
module Modes {
  const UNSET := -1
  const DAY := 0
  const NIGHT := 1

  /** Day mode runs from `9` o'clock up to `night_mode_starts`. */
  const DAY_MODE_STARTS := 9
  const NIGHT_MODE_STARTS := 10

  /** The mode `updateTimeAndMode` assigns for an hour of the day. */
  function ModeOf(hours: int): (m: int)
    ensures m == DAY || m == NIGHT
  {
    if hours >= DAY_MODE_STARTS && hours < NIGHT_MODE_STARTS then DAY else NIGHT
  }

  /** `modes[mode]`. */
  function ModeName(m: int): (name: string)
    requires m == DAY || m == NIGHT
    ensures name == if m == DAY then "Day" else "Night"
  {
    ["Day", "Night"][m]
  }

  /** The text written to the mode label. */
  function ModeLabel(m: int): string
    requires m == DAY || m == NIGHT
  {
    "Mode: " + ModeName(m)
  }

  /** Day is exactly the hours from 9 up to but excluding 10; every other
      hour is Night. */
  lemma ModeOfClassifies(hours: int)
    ensures ModeOf(hours) == DAY <==> DAY_MODE_STARTS <= hours < NIGHT_MODE_STARTS
    ensures ModeOf(hours) == NIGHT <==> !(DAY_MODE_STARTS <= hours < NIGHT_MODE_STARTS)
  {
  }

  /** With these constants, Day mode covers a single hour of the clock. */
  lemma DayIsTheNineOClockHour(hours: int)
    requires 0 <= hours < 24
    ensures ModeOf(hours) == DAY <==> hours == 9
  {
  }

  /** Distinct modes have distinct labels, so a label refresh always shows a
      change. */
  lemma ModeLabelsDiffer()
    ensures ModeLabel(DAY) != ModeLabel(NIGHT)
  {
    assert ModeLabel(DAY)[6] == 'D' && ModeLabel(NIGHT)[6] == 'N';
  }
}
