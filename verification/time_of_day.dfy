/**
 * Times of day as the schedule gate sees them: zero-padded "HH:MM" strings,
 * compared with JavaScript's string ordering, and the monitoring window that
 * the gate computes from them.
 */
module TimeOfDay {

  /** Minutes in one day. */
  const MinutesPerDay := 1440

  // ---------------------------------------------------------------------------
  // JavaScript string comparison

  /**
   * JavaScript's `a < b` on two strings: lexicographic order on characters
   * (which on ASCII text, such as "HH:MM" strings, are JavaScript's UTF-16
   * code units), a proper prefix being smaller than the longer string.
   */
  predicate LexLess(a: string, b: string)
  {
    if |b| == 0 then false
    else if |a| == 0 then true
    else if a[0] != b[0] then a[0] < b[0]
    else LexLess(a[1..], b[1..])
  }

  /** No string is below itself, so `s >= s` always holds in JavaScript. */
  lemma {:induction false} LexLessIrreflexive(s: string)
    ensures !LexLess(s, s)
  {
    if |s| > 0 {
      LexLessIrreflexive(s[1..]);
    }
  }

  // ---------------------------------------------------------------------------
  // Well-formed "HH:MM" strings

  predicate IsDigit(c: char)
  {
    '0' <= c <= '9'
  }

  function DigitValue(c: char): int
  {
    c as int - '0' as int
  }

  function DigitChar(d: nat): (c: char)
    requires d < 10
    ensures IsDigit(c) && DigitValue(c) == d
  {
    ('0' as int + d) as char
  }

  /** The hour written in the first two characters. */
  function Hours(s: string): int
    requires |s| == 5
  {
    10 * DigitValue(s[0]) + DigitValue(s[1])
  }

  /** The minute written in the last two characters. */
  function Minutes(s: string): int
    requires |s| == 5
  {
    10 * DigitValue(s[3]) + DigitValue(s[4])
  }

  /** A 24-hour clock reading written as two digits, a colon and two digits. */
  predicate WellFormed(s: string)
  {
    && |s| == 5
    && IsDigit(s[0]) && IsDigit(s[1]) && s[2] == ':' && IsDigit(s[3]) && IsDigit(s[4])
    && Hours(s) < 24 && Minutes(s) < 60
  }

  /** The minute of the day a well-formed string denotes, in [0, 1440). */
  function MinuteOfDay(s: string): (m: int)
    requires WellFormed(s)
    ensures 0 <= m < MinutesPerDay
  {
    60 * Hours(s) + Minutes(s)
  }

  /**
   * Comparing two well-formed strings with `<` agrees with the order of the
   * minutes of the day they denote. This is what makes the string comparisons
   * of the schedule check meaningful.
   */
  lemma LexLessIsMinuteOrder(a: string, b: string)
    requires WellFormed(a) && WellFormed(b)
    ensures LexLess(a, b) <==> MinuteOfDay(a) < MinuteOfDay(b)
  {
    assert LexLess(a, b) <==>
      || a[0] < b[0]
      || (a[0] == b[0] && a[1] < b[1])
      || (a[0] == b[0] && a[1] == b[1] && a[3] < b[3])
      || (a[0] == b[0] && a[1] == b[1] && a[3] == b[3] && a[4] < b[4])
    by {
      LexLessUnfoldClock(a, b);
    }
    assert Hours(a) < Hours(b) <==> a[0] < b[0] || (a[0] == b[0] && a[1] < b[1]);
    assert Minutes(a) < Minutes(b) <==> a[3] < b[3] || (a[3] == b[3] && a[4] < b[4]);
    assert Hours(a) == Hours(b) <==> a[0] == b[0] && a[1] == b[1];
  }

  /** Unfolds `<` over the five characters of two clock strings. */
  lemma LexLessUnfoldClock(a: string, b: string)
    requires |a| == 5 && |b| == 5 && a[2] == ':' && b[2] == ':'
    ensures LexLess(a, b) <==>
      || a[0] < b[0]
      || (a[0] == b[0] && a[1] < b[1])
      || (a[0] == b[0] && a[1] == b[1] && a[3] < b[3])
      || (a[0] == b[0] && a[1] == b[1] && a[3] == b[3] && a[4] < b[4])
  {
    var a1, b1 := a[1..], b[1..];
    var a2, b2 := a1[1..], b1[1..];
    var a3, b3 := a2[1..], b2[1..];
    var a4, b4 := a3[1..], b3[1..];
    assert a4[1..] == [] == b4[1..];
    assert LexLess(a4, b4) <==> a[4] < b[4];
    assert LexLess(a3, b3) <==> a[3] < b[3] || (a[3] == b[3] && a[4] < b[4]);
    assert LexLess(a2, b2) == LexLess(a3, b3);
  }

  /** Two well-formed strings denoting the same minute are the same string. */
  lemma MinuteOfDayInjective(a: string, b: string)
    requires WellFormed(a) && WellFormed(b)
    requires MinuteOfDay(a) == MinuteOfDay(b)
    ensures a == b
  {
    LexLessIsMinuteOrder(a, b);
    assert Hours(a) == Hours(b);
    assert a[0] == b[0] && a[1] == b[1] && a[3] == b[3] && a[4] == b[4];
  }

  // ---------------------------------------------------------------------------
  // Rendering the clock: `n.toString().padStart(2, '0')`

  /** `n.toString()` for a non-negative integer: its decimal digits. */
  function DecimalString(n: nat): string
    decreases n
  {
    if n < 10 then [DigitChar(n)] else DecimalString(n / 10) + [DigitChar(n % 10)]
  }

  /** `s.padStart(width, fill)` for a one-character fill string. */
  function PadStart(s: string, width: nat, fill: char): (r: string)
    ensures |r| == if |s| >= width then |s| else width
    decreases width - |s|
  {
    if |s| >= width then s else PadStart([fill] + s, width, fill)
  }

  /** An hour or minute written with at least two digits. */
  function TwoDigits(n: nat): string
  {
    PadStart(DecimalString(n), 2, '0')
  }

  /** The current time as the schedule check renders it from `getHours()` and `getMinutes()`. */
  function ClockString(hours: nat, minutes: nat): string
  {
    TwoDigits(hours) + ":" + TwoDigits(minutes)
  }

  /** Below one hundred, `TwoDigits` writes exactly two digits, tens first. */
  lemma TwoDigitsBelowHundred(n: nat)
    requires n < 100
    ensures var t := TwoDigits(n);
      |t| == 2 && IsDigit(t[0]) && IsDigit(t[1]) && 10 * DigitValue(t[0]) + DigitValue(t[1]) == n
  {
    var q, r := n / 10, n % 10;
    assert n == 10 * q + r && 0 <= r < 10 && q < 10;
    if n < 10 {
      assert DecimalString(n) == [DigitChar(n)];
      assert PadStart([DigitChar(n)], 2, '0') == PadStart(['0', DigitChar(n)], 2, '0') == ['0', DigitChar(n)];
    } else {
      assert DecimalString(q) == [DigitChar(q)];
      assert DecimalString(n) == [DigitChar(q), DigitChar(r)];
    }
  }

  /**
   * The rendered clock is a well-formed string denoting exactly the minute of
   * the day that was read.
   */
  lemma ClockStringWellFormed(hours: nat, minutes: nat)
    requires hours < 24 && minutes < 60
    ensures WellFormed(ClockString(hours, minutes))
    ensures MinuteOfDay(ClockString(hours, minutes)) == 60 * hours + minutes
  {
    var h, m := TwoDigits(hours), TwoDigits(minutes);
    TwoDigitsBelowHundred(hours);
    TwoDigitsBelowHundred(minutes);
    var s := ClockString(hours, minutes);
    assert s == h + ":" + m;
    assert |s| == 5 && s[0] == h[0] && s[1] == h[1] && s[2] == ':' && s[3] == m[0] && s[4] == m[1];
    assert Hours(s) == hours && Minutes(s) == minutes;
  }

  /** Every well-formed string is the rendering of the clock reading it denotes. */
  lemma WellFormedIsClockString(s: string)
    requires WellFormed(s)
    ensures ClockString(Hours(s), Minutes(s)) == s
  {
    ClockStringWellFormed(Hours(s), Minutes(s));
    MinuteOfDayInjective(ClockString(Hours(s), Minutes(s)), s);
  }

  // ---------------------------------------------------------------------------
  // The monitoring window

  /**
   * Whether `now` lies in the window from `start` to `end`, as the schedule
   * check decides it: a window whose start is below its end is the half-open
   * interval between them, any other window crosses midnight.
   */
  predicate InWindow(now: string, start: string, end: string)
  {
    if LexLess(start, end) then !LexLess(now, start) && LexLess(now, end)
    else !LexLess(now, start) || LexLess(now, end)
  }

  /** Minutes elapsed on a 24-hour clock from minute `from` to minute `to`. */
  function MinutesSince(from: int, to: int): (d: int)
    ensures 0 <= d < MinutesPerDay
  {
    (to - from) % MinutesPerDay
  }

  /**
   * A window of a day, stated independently of the string comparisons: the
   * window opens at `start` and stays open for the minutes elapsed from `start`
   * to `end`; a window of no length covers the whole day.
   */
  predicate ActiveAt(now: int, start: int, end: int)
  {
    start == end || MinutesSince(start, now) < MinutesSince(start, end)
  }

  /**
   * For well-formed strings, the schedule check's comparisons decide exactly
   * the window of the day that opens at `start` and closes at `end`.
   */
  lemma InWindowIsActiveAt(now: string, start: string, end: string)
    requires WellFormed(now) && WellFormed(start) && WellFormed(end)
    ensures InWindow(now, start, end) <==> ActiveAt(MinuteOfDay(now), MinuteOfDay(start), MinuteOfDay(end))
  {
    LexLessIsMinuteOrder(start, end);
    LexLessIsMinuteOrder(now, start);
    LexLessIsMinuteOrder(now, end);
    var n, s, e := MinuteOfDay(now), MinuteOfDay(start), MinuteOfDay(end);
    MinutesSinceOnClock(s, n);
    MinutesSinceOnClock(s, e);
  }

  /** On the clock face, elapsed minutes are the plain difference, or the difference plus a day. */
  lemma MinutesSinceOnClock(from: int, to: int)
    requires 0 <= from < MinutesPerDay && 0 <= to < MinutesPerDay
    ensures MinutesSince(from, to) == if from <= to then to - from else to - from + MinutesPerDay
  {
    var d := to - from;
    if from <= to {
      assert d % MinutesPerDay == d;
    } else {
      assert (d + MinutesPerDay) % MinutesPerDay == d % MinutesPerDay;
    }
  }

  /**
   * A window whose start and end are the same string is always active,
   * whatever the strings are: neither branch of the check can reject `now`.
   */
  lemma EqualBoundsAlwaysActive(now: string, bound: string)
    ensures InWindow(now, bound, bound)
  {
    LexLessIrreflexive(bound);
  }

  /** The worked example of an overnight window: 22:00 to 06:00. */
  lemma OvernightWindowExample()
    ensures InWindow("23:30", "22:00", "06:00")
    ensures InWindow("02:00", "22:00", "06:00")
    ensures !InWindow("12:00", "22:00", "06:00")
  {
    assert WellFormed("22:00") && MinuteOfDay("22:00") == 1320;
    assert WellFormed("06:00") && MinuteOfDay("06:00") == 360;
    assert WellFormed("23:30") && MinuteOfDay("23:30") == 1410;
    InWindowIsActiveAt("23:30", "22:00", "06:00");
    assert WellFormed("02:00") && MinuteOfDay("02:00") == 120;
    InWindowIsActiveAt("02:00", "22:00", "06:00");
    assert WellFormed("12:00") && MinuteOfDay("12:00") == 720;
    InWindowIsActiveAt("12:00", "22:00", "06:00");
  }

  /** The worked example of a daytime window: 08:00 to 18:00. */
  lemma DaytimeWindowExample()
    ensures InWindow("10:00", "08:00", "18:00")
    ensures !InWindow("20:00", "08:00", "18:00")
  {
    assert WellFormed("08:00") && MinuteOfDay("08:00") == 480;
    assert WellFormed("18:00") && MinuteOfDay("18:00") == 1080;
    assert WellFormed("10:00") && MinuteOfDay("10:00") == 600;
    InWindowIsActiveAt("10:00", "08:00", "18:00");
    assert WellFormed("20:00") && MinuteOfDay("20:00") == 1200;
    InWindowIsActiveAt("20:00", "08:00", "18:00");
  }
}
