/**
 * `DateTime.ParseExact(text, "yyyy-MM-d HH:mm:ss", CultureInfo.InvariantCulture)` with no style flags:
 * `yyyy`, `MM`, `HH`, `mm` and `ss` read exactly that many ASCII digits, `d` reads one digit or,
 * when a second follows, two; '-', ' ' and ':' must appear literally; nothing may precede or follow;
 * and the fields must name a real instant of the proleptic Gregorian calendar between years 1 and 9999.
 */
module Timestamps {
  import opened Wrappers
  import opened Numbers

  datatype DateTime = DateTime(year: nat, month: nat, day: nat, hour: nat, minute: nat, second: nat)

  predicate IsLeapYear(year: nat)
  {
    year % 4 == 0 && (year % 100 != 0 || year % 400 == 0)
  }

  function DaysInMonth(year: nat, month: nat): nat
  {
    if month == 2 then (if IsLeapYear(year) then 29 else 28)
    else if month == 4 || month == 6 || month == 9 || month == 11 then 30
    else 31
  }

  predicate ValidDateTime(t: DateTime)
  {
    1 <= t.year <= 9999 && 1 <= t.month <= 12 && 1 <= t.day <= DaysInMonth(t.year, t.month) &&
    t.hour < 24 && t.minute < 60 && t.second < 60
  }

  /** The text " HH:mm:ss" that follows the day. */
  predicate IsTimeOfDayText(time: string)
  {
    |time| == 9 && time[0] == ' ' && AllDigits(time[1..3]) && time[3] == ':' &&
    AllDigits(time[4..6]) && time[6] == ':' && AllDigits(time[7..9])
  }

  function ParseTimestamp(s: string): (r: Option<DateTime>)
    ensures r.Some? ==> ValidDateTime(r.value)
  {
    if |s| < 18 then None
    else
      // the one-letter day pattern takes a second digit when there is one
      var dayWidth := if IsDigit(s[9]) then 2 else 1;
      if s[4] == '-' && s[7] == '-' then ParseFields(s[..4], s[5..7], s[8..8 + dayWidth], s[8 + dayWidth..])
      else None
  }

  /** The pieces between the date separators: "yyyy", "MM", the day's digits and " HH:mm:ss". */
  function ParseFields(year: string, month: string, day: string, time: string): (r: Option<DateTime>)
    ensures r.Some? ==> ValidDateTime(r.value)
  {
    if !(AllDigits(year) && AllDigits(month) && AllDigits(day) && IsTimeOfDayText(time)) then None
    else
      var t := DateTime(DigitsValue(year), DigitsValue(month), DigitsValue(day),
                        DigitsValue(time[1..3]), DigitsValue(time[4..6]), DigitsValue(time[7..9]));
      if ValidDateTime(t) then Some(t) else None
  }

  /** The timestamp written in the pattern, with the day padded to `dayWidth` digits (1: "2015-02-1", 2: "2015-02-01"). */
  function TimestampText(t: DateTime, dayWidth: nat): string
  {
    DateText(t, dayWidth) + TimeOfDay(t)
  }

  function DateText(t: DateTime, dayWidth: nat): string
  {
    PaddedDigits(t.year, 4) + "-" + PaddedDigits(t.month, 2) + "-" + PaddedDigits(t.day, dayWidth)
  }

  function TimeOfDay(t: DateTime): string
  {
    " " + PaddedDigits(t.hour, 2) + ":" + PaddedDigits(t.minute, 2) + ":" + PaddedDigits(t.second, 2)
  }

  lemma {:induction false} NatToDigitsLength(n: nat, k: nat)
    requires k >= 1 && n < Pow10(k)
    ensures |NatToDigits(n)| <= k
  {
    if n >= 10 {
      NatToDigitsLength(n / 10, k - 1);
    }
  }

  lemma PaddedDigitsWidth(n: nat, k: nat)
    requires k >= 1 && n < Pow10(k)
    ensures |PaddedDigits(n, k)| == k
  {
    NatToDigitsLength(n, k);
  }

  lemma NatToDigitsStep(v: nat, d: nat)
    requires v >= 1 && d < 10
    ensures NatToDigits(v * 10 + d) == NatToDigits(v) + [DigitChar(d)]
  {
    var n := v * 10 + d;
    assert n / 10 == v && n % 10 == d;
  }

  /** Appending a digit to padded digits pads the extended number to one more place. */
  lemma PaddedStep(v: nat, d: nat, width: nat)
    requires width >= 1 && d < 10
    ensures PaddedDigits(v * 10 + d, width + 1) == PaddedDigits(v, width) + [DigitChar(d)]
  {
    if v == 0 {
      assert NatToDigits(d) == [DigitChar(d)];
      assert PaddedDigits(0, width) == Zeros(width - 1) + ['0'];
    } else {
      NatToDigitsStep(v, d);
      var e := NatToDigits(v);
      if |e| < width {
        assert PaddedDigits(v * 10 + d, width + 1) == Zeros(width - |e|) + (e + [DigitChar(d)]);
      }
    }
  }

  /** Fixed-width digits are the padded digits of their own value. */
  lemma {:induction false} DigitsArePadded(s: string)
    requires |s| >= 1 && AllDigits(s)
    ensures PaddedDigits(DigitsValue(s), |s|) == s
  {
    var s', c := s[..|s| - 1], s[|s| - 1];
    var d := DigitValue(c);
    assert IsDigit(c);
    assert DigitChar(d) == c;
    if |s'| == 0 {
      assert s == [c];
      assert NatToDigits(d) == [c];
    } else {
      DigitsSplit(s, |s| - 1);
      DigitsArePadded(s');
      PaddedStep(DigitsValue(s'), d, |s'|);
      assert s == s' + [c];
    }
  }

  lemma DateTextParts(t: DateTime, dayWidth: nat)
    requires ValidDateTime(t) && (dayWidth == 1 || dayWidth == 2)
    ensures var s := DateText(t, dayWidth);
      var w := |PaddedDigits(t.day, dayWidth)|;
      (w == 1 || w == 2) && |s| == 8 + w &&
      s[..4] == PaddedDigits(t.year, 4) && s[4] == '-' && s[5..7] == PaddedDigits(t.month, 2) && s[7] == '-' &&
      s[8..] == PaddedDigits(t.day, dayWidth)
  {
    assert Pow10(2) == 100 && Pow10(4) == 10000;
    PaddedDigitsWidth(t.year, 4);
    PaddedDigitsWidth(t.month, 2);
    PaddedDigitsWidth(t.day, 2);
    if dayWidth == 1 {
      NatToDigitsLength(t.day, 2);
    }
    var y, m, d := PaddedDigits(t.year, 4), PaddedDigits(t.month, 2), PaddedDigits(t.day, dayWidth);
    var s := y + "-" + m + "-" + d;
    assert s == DateText(t, dayWidth);
    assert s[..4] == y;
    assert s[5..7] == m;
    assert s[8..] == d;
  }

  lemma TimeOfDayParts(t: DateTime)
    requires ValidDateTime(t)
    ensures var time := TimeOfDay(t);
      |time| == 9 && time[0] == ' ' && time[3] == ':' && time[6] == ':' &&
      time[1..3] == PaddedDigits(t.hour, 2) && time[4..6] == PaddedDigits(t.minute, 2) &&
      time[7..9] == PaddedDigits(t.second, 2)
  {
    assert Pow10(2) == 100;
    PaddedDigitsWidth(t.hour, 2);
    PaddedDigitsWidth(t.minute, 2);
    PaddedDigitsWidth(t.second, 2);
    var h, m, sec := PaddedDigits(t.hour, 2), PaddedDigits(t.minute, 2), PaddedDigits(t.second, 2);
    var time := " " + h + ":" + m + ":" + sec;
    assert time == TimeOfDay(t);
    assert time[1..3] == h;
    assert time[4..6] == m;
    assert time[7..9] == sec;
  }

  /** The time of day of a valid instant is well-formed text whose numbers are the instant's own. */
  lemma TimeOfDayValues(t: DateTime)
    requires ValidDateTime(t)
    ensures var time := TimeOfDay(t);
      IsTimeOfDayText(time) && DigitsValue(time[1..3]) == t.hour &&
      DigitsValue(time[4..6]) == t.minute && DigitsValue(time[7..9]) == t.second
  {
    TimeOfDayParts(t);
    PaddedDigitsValue(t.hour, 2);
    PaddedDigitsValue(t.minute, 2);
    PaddedDigitsValue(t.second, 2);
  }

  /** The padded pieces of a valid instant read back as that instant. */
  lemma ParseFieldsPadded(t: DateTime, dayWidth: nat)
    requires ValidDateTime(t)
    ensures ParseFields(PaddedDigits(t.year, 4), PaddedDigits(t.month, 2), PaddedDigits(t.day, dayWidth), TimeOfDay(t)) == Some(t)
  {
    PaddedDigitsValue(t.year, 4);
    PaddedDigitsValue(t.month, 2);
    PaddedDigitsValue(t.day, dayWidth);
    TimeOfDayValues(t);
  }

  /** Slicing a date of `8 + w` characters followed by a time of day of nine. */
  lemma JoinedPieces(date: string, time: string, w: nat)
    requires |date| == 8 + w && |time| == 9 && (w == 1 || w == 2)
    ensures var s := date + time;
      |s| >= 18 && s[4] == date[4] && s[7] == date[7] &&
      s[..4] == date[..4] && s[5..7] == date[5..7] && s[8..8 + w] == date[8..] && s[8 + w..] == time &&
      s[9] == (if w == 2 then date[8..][1] else time[0])
  {
  }

  /** Where the pieces of a written timestamp sit, and what decides the width of its day. */
  lemma TimestampTextPieces(t: DateTime, dayWidth: nat)
    requires ValidDateTime(t) && (dayWidth == 1 || dayWidth == 2)
    ensures var s, day := TimestampText(t, dayWidth), PaddedDigits(t.day, dayWidth);
      var w := |day|;
      (w == 1 || w == 2) && |s| >= 18 && s[4] == '-' && s[7] == '-' && (IsDigit(s[9]) <==> w == 2) &&
      s[..4] == PaddedDigits(t.year, 4) && s[5..7] == PaddedDigits(t.month, 2) &&
      s[8..8 + w] == day && s[8 + w..] == TimeOfDay(t)
  {
    var date, time := DateText(t, dayWidth), TimeOfDay(t);
    DateTextParts(t, dayWidth);
    TimeOfDayParts(t);
    var day := PaddedDigits(t.day, dayWidth);
    PaddedDigitsValue(t.day, dayWidth);
    JoinedPieces(date, time, |day|);
    assert |day| == 2 ==> IsDigit(day[1]);
  }

  /** Every valid timestamp, written with a one- or two-digit day, parses back to itself. */
  lemma ParseTimestampText(t: DateTime, dayWidth: nat)
    requires ValidDateTime(t) && (dayWidth == 1 || dayWidth == 2)
    ensures ParseTimestamp(TimestampText(t, dayWidth)) == Some(t)
  {
    TimestampTextPieces(t, dayWidth);
    ParseFieldsPadded(t, dayWidth);
  }

  /** A time of day is its separators and its three pairs of digits. */
  lemma TimeOfDayPieces(time: string)
    requires |time| == 9 && time[0] == ' ' && time[3] == ':' && time[6] == ':'
    ensures time == " " + time[1..3] + ":" + time[4..6] + ":" + time[7..9]
  {
  }

  /** Well-formed time-of-day text is the time of day of any instant carrying its numbers. */
  lemma TimeOfDayOfText(time: string, t: DateTime)
    requires IsTimeOfDayText(time)
    requires t.hour == DigitsValue(time[1..3]) && t.minute == DigitsValue(time[4..6]) && t.second == DigitsValue(time[7..9])
    ensures time == TimeOfDay(t)
  {
    DigitsArePadded(time[1..3]);
    DigitsArePadded(time[4..6]);
    DigitsArePadded(time[7..9]);
    TimeOfDayPieces(time);
  }

  /** A text of at least `8 + w` characters is its first four, a '-' , two more, a '-', `w` more and the rest. */
  lemma DatePieces(s: string, w: nat)
    requires |s| >= 8 + w && s[4] == '-' && s[7] == '-'
    ensures s == s[..4] + "-" + s[5..7] + "-" + s[8..8 + w] + s[8 + w..]
  {
  }

  /** Conversely, the only texts accepted are the two renderings of the timestamp they denote. */
  lemma TimestampIsText(s: string)
    requires ParseTimestamp(s).Some?
    ensures var t := ParseTimestamp(s).value;
      s == TimestampText(t, 1) || s == TimestampText(t, 2)
  {
    var t := ParseTimestamp(s).value;
    var dayWidth := if IsDigit(s[9]) then 2 else 1;
    var year, month, day, time := s[..4], s[5..7], s[8..8 + dayWidth], s[8 + dayWidth..];
    assert ParseFields(year, month, day, time) == Some(t);
    DigitsArePadded(year);
    DigitsArePadded(month);
    DigitsArePadded(day);
    TimeOfDayOfText(time, t);
    DatePieces(s, dayWidth);
    assert s == DateText(t, dayWidth) + TimeOfDay(t);
  }
}
