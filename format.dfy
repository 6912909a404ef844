/** The strings the engine builds: the date and time tokens of `getCurrentDate`
    and `getCurrentTime`, the clock label, the keys under which a batch is
    written, and the filename filter applied to the stored files. The clock is
    a parameter: a `DateTime` holds what `new Date()` would report. */
module Format {
  import opened Js

  /** The components `getDate()`, `getMonth()` (counted from 0), `getFullYear()`,
      `getHours()`, `getMinutes()` and `getSeconds()` of one reading of the clock. */
  datatype DateTime = DateTime(day: nat, month: nat, year: nat, hours: nat, minutes: nat, seconds: nat)

  const HR_AVG_SUFFIX := "hr_avg_measures.json"
  const HR_STD_SUFFIX := "hr_std_measures.json"
  const ACC_STD_SUFFIX := "acc_std_measures.json"

  /** The filename pattern `start_pattern` / `end_pattern` of the directory listing. */
  const START_PATTERN := "19_11_2020"
  const END_PATTERN := "acc_std_measures.json"

  predicate IsDigit(c: char)
  {
    '0' <= c <= '9'
  }

  predicate AllDigits(s: string)
  {
    forall i :: 0 <= i < |s| ==> IsDigit(s[i])
  }

  function DigitChar(d: nat): (c: char)
    requires d < 10
    ensures IsDigit(c)
  {
    ('0' as int + d) as char
  }

  /** How JavaScript writes a non-negative integer into a string: its decimal
      digits, with no sign, no padding and no leading zero. */
  function NatToString(n: nat): (s: string)
    ensures |s| > 0 && AllDigits(s)
    ensures s[0] == '0' ==> n == 0
  {
    if n < 10 then [DigitChar(n)] else NatToString(n / 10) + [DigitChar(n % 10)]
  }

  /** The number a string of decimal digits denotes. */
  function DigitsValue(s: string): nat
    requires AllDigits(s)
  {
    if |s| == 0 then 0
    else DigitsValue(s[..|s| - 1]) * 10 + (s[|s| - 1] as int - '0' as int)
  }

  /** Reading back the digits of `n` gives `n`: the written form loses nothing. */
  lemma {:induction false} NatToStringRoundTrip(n: nat)
    ensures DigitsValue(NatToString(n)) == n
  {
    var s := NatToString(n);
    if n >= 10 {
      NatToStringRoundTrip(n / 10);
      assert s[..|s| - 1] == NatToString(n / 10);
    }
  }

  lemma NatToStringInjective(a: nat, b: nat)
    requires NatToString(a) == NatToString(b)
    ensures a == b
  {
    NatToStringRoundTrip(a);
    NatToStringRoundTrip(b);
  }

  /** `getCurrentDate()`: day, month counted from 1, and year joined by `_`
      (9 October 2020 gives `9_10_2020`). */
  function CurrentDate(t: DateTime): string
  {
    NatToString(t.day) + "_" + NatToString(t.month + 1) + "_" + NatToString(t.year)
  }

  /** `getCurrentTime()`: hours, minutes and seconds as `<h>h<m>m<s>`. */
  function CurrentTime(t: DateTime): string
  {
    NatToString(t.hours) + "h" + NatToString(t.minutes) + "m" + NatToString(t.seconds)
  }

  /** The text of the time label, `<hours>:<minutes>`. */
  function ClockText(t: DateTime): string
  {
    NatToString(t.hours) + ":" + NatToString(t.minutes)
  }

  /** The key one series of a batch is written under:
      `<date>_<batch start>_<batch end>_<suffix>`. */
  function FlushKey(date: string, start: string, end: string, suffix: string): string
  {
    date + "_" + start + "_" + end + "_" + suffix
  }

  /** The filename test of the directory listing: the first `|START_PATTERN|`
      characters are the date pattern and the last `|END_PATTERN|` characters
      are the series suffix, both taken with `slice`. */
  predicate FileFilter(filename: string)
  {
    Slice(filename, 0, |START_PATTERN|) == START_PATTERN
    && Slice(filename, -|END_PATTERN|, |filename|) == END_PATTERN
  }

  /** A digit string followed by a non-digit separator can be split off in one
      way only. */
  lemma SplitAtSeparator(a: string, b: string, a': string, b': string, c: char)
    requires AllDigits(a) && AllDigits(a') && !IsDigit(c)
    requires a + [c] + b == a' + [c] + b'
    ensures a == a' && b == b'
  {
    var w := a + [c] + b;
    var k := if |a| <= |a'| then |a| else |a'|;
    assert w[k] == (a + [c])[k] == (a' + [c])[k];
    assert |a| == |a'|;
    assert a == w[..|a|] == a';
    assert b == w[|a| + 1..] == b';
  }

  /** Three digit strings joined by two non-digit separators can be split
      back in one way only. */
  lemma ThreeFieldsInjective(a: string, b: string, c: string, a': string, b': string, c': string,
                             sep1: char, sep2: char)
    requires AllDigits(a) && AllDigits(b) && AllDigits(a') && AllDigits(b')
    requires !IsDigit(sep1) && !IsDigit(sep2)
    requires a + [sep1] + b + [sep2] + c == a' + [sep1] + b' + [sep2] + c'
    ensures a == a' && b == b' && c == c'
  {
    var rest, rest' := b + [sep2] + c, b' + [sep2] + c';
    assert a + [sep1] + b + [sep2] + c == a + [sep1] + rest;
    assert a' + [sep1] + b' + [sep2] + c' == a' + [sep1] + rest';
    SplitAtSeparator(a, rest, a', rest', sep1);
    SplitAtSeparator(b, c, b', c', sep2);
  }

  /** Different clock readings give different time tokens, unless they
      agree to the second. */
  lemma CurrentTimeInjective(t: DateTime, u: DateTime)
    requires CurrentTime(t) == CurrentTime(u)
    ensures t.hours == u.hours && t.minutes == u.minutes && t.seconds == u.seconds
  {
    ThreeFieldsInjective(NatToString(t.hours), NatToString(t.minutes), NatToString(t.seconds),
                         NatToString(u.hours), NatToString(u.minutes), NatToString(u.seconds), 'h', 'm');
    NatToStringInjective(t.hours, u.hours);
    NatToStringInjective(t.minutes, u.minutes);
    NatToStringInjective(t.seconds, u.seconds);
  }

  /** Different days give different date tokens. */
  lemma CurrentDateInjective(t: DateTime, u: DateTime)
    requires CurrentDate(t) == CurrentDate(u)
    ensures t.day == u.day && t.month == u.month && t.year == u.year
  {
    ThreeFieldsInjective(NatToString(t.day), NatToString(t.month + 1), NatToString(t.year),
                         NatToString(u.day), NatToString(u.month + 1), NatToString(u.year), '_', '_');
    NatToStringInjective(t.day, u.day);
    NatToStringInjective(t.month + 1, u.month + 1);
    NatToStringInjective(t.year, u.year);
  }

  /** The three series of one batch are written under three different keys. */
  lemma FlushKeysDistinct(date: string, start: string, end: string)
    ensures FlushKey(date, start, end, HR_AVG_SUFFIX) != FlushKey(date, start, end, HR_STD_SUFFIX)
    ensures FlushKey(date, start, end, HR_AVG_SUFFIX) != FlushKey(date, start, end, ACC_STD_SUFFIX)
    ensures FlushKey(date, start, end, HR_STD_SUFFIX) != FlushKey(date, start, end, ACC_STD_SUFFIX)
  {
    var p := date + "_" + start + "_" + end + "_";
    assert (p + HR_AVG_SUFFIX)[|p| + 3] == 'a' && (p + HR_STD_SUFFIX)[|p| + 3] == 's';
    assert |p + HR_AVG_SUFFIX| != |p + ACC_STD_SUFFIX|;
    assert |p + HR_STD_SUFFIX| != |p + ACC_STD_SUFFIX|;
  }

  /** For any non-empty patterns, the `slice` test is "starts with the date
      pattern and ends with the suffix pattern". */
  lemma SliceTestIsPrefixAndSuffix(f: string, start: string, end: string)
    requires |end| > 0
    ensures (Slice(f, 0, |start|) == start && Slice(f, -|end|, |f|) == end)
        <==> (|start| <= |f| && f[..|start|] == start && |end| <= |f| && f[|f| - |end|..] == end)
  {
    if |f| < |start| {
      assert Slice(f, 0, |start|) == f;
    }
    if |f| < |end| {
      assert Slice(f, -|end|, |f|) == f;
    }
  }

  lemma FileFilterIsPrefixAndSuffix(f: string)
    ensures FileFilter(f) <==> (START_PATTERN <= f && |END_PATTERN| <= |f| && f[|f| - |END_PATTERN|..] == END_PATTERN)
  {
    SliceTestIsPrefixAndSuffix(f, START_PATTERN, END_PATTERN);
  }

  /** On a name that starts with the date pattern, the filter only looks at
      the end. */
  lemma FileFilterOnDatePrefix(rest: string)
    ensures FileFilter(START_PATTERN + rest)
        <==> (|END_PATTERN| <= |START_PATTERN + rest|
              && (START_PATTERN + rest)[|START_PATTERN + rest| - |END_PATTERN|..] == END_PATTERN)
  {
    assert (START_PATTERN + rest)[..|START_PATTERN|] == START_PATTERN;
    FileFilterIsPrefixAndSuffix(START_PATTERN + rest);
  }

  lemma DateOfThatNight(t: DateTime)
    requires t.day == 19 && t.month == 10 && t.year == 2020
    ensures CurrentDate(t) == START_PATTERN
  {
    assert NatToString(1) == "1" && NatToString(9) == "9" && NatToString(0) == "0" && NatToString(2) == "2";
    assert NatToString(19) == "19";
    assert NatToString(11) == "11";
    assert NatToString(20) == "20";
    assert NatToString(202) == "202";
    assert NatToString(2020) == "2020";
  }

  /** A name made of the date pattern, any middle part and the acceleration
      suffix passes the filter. */
  lemma FilterKeepsAccelerationKey(mid: string)
    ensures FileFilter(START_PATTERN + (mid + END_PATTERN))
  {
    var f := START_PATTERN + (mid + END_PATTERN);
    FileFilterOnDatePrefix(mid + END_PATTERN);
    assert f == (START_PATTERN + mid) + END_PATTERN;
  }

  /** With a middle part ending in `_` and a suffix one character shorter
      than the acceleration suffix, the last `|END_PATTERN|` characters start
      with that `_`, so the filter rejects the name. */
  lemma FilterRejectsShorterSuffix(mid: string, suffix: string)
    requires |mid| > 0 && mid[|mid| - 1] == '_'
    requires |suffix| == |END_PATTERN| - 1
    ensures !FileFilter(START_PATTERN + (mid + suffix))
  {
    var f := START_PATTERN + (mid + suffix);
    FileFilterOnDatePrefix(mid + suffix);
    assert f[|f| - |END_PATTERN|] == '_';
    assert END_PATTERN[0] == 'a';
  }

  /** Of the three files written on 19 November 2020, the filter keeps the
      acceleration-variance one and skips the two heart-rate ones, whatever
      the batch's start and end tokens. */
  lemma FilterKeepsAccelerationFilesOfThatNight(t: DateTime, start: string, end: string)
    requires t.day == 19 && t.month == 10 && t.year == 2020
    ensures FileFilter(FlushKey(CurrentDate(t), start, end, ACC_STD_SUFFIX))
    ensures !FileFilter(FlushKey(CurrentDate(t), start, end, HR_AVG_SUFFIX))
    ensures !FileFilter(FlushKey(CurrentDate(t), start, end, HR_STD_SUFFIX))
  {
    DateOfThatNight(t);
    var mid := "_" + start + "_" + end + "_";
    assert |mid| > 0 && mid[|mid| - 1] == '_';
    assert FlushKey(START_PATTERN, start, end, ACC_STD_SUFFIX) == START_PATTERN + (mid + ACC_STD_SUFFIX);
    assert FlushKey(START_PATTERN, start, end, HR_AVG_SUFFIX) == START_PATTERN + (mid + HR_AVG_SUFFIX);
    assert FlushKey(START_PATTERN, start, end, HR_STD_SUFFIX) == START_PATTERN + (mid + HR_STD_SUFFIX);
    FilterKeepsAccelerationKey(mid);
    FilterRejectsShorterSuffix(mid, HR_AVG_SUFFIX);
    FilterRejectsShorterSuffix(mid, HR_STD_SUFFIX);
  }
}
