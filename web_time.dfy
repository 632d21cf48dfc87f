/**
 * web/src/utils/time.ts: display and expiry helpers over protobuf
 * timestamps. A timestamp is its instant in epoch milliseconds, `None` when
 * the field is undefined; "now" is a parameter, and the browser's local
 * calendar (getFullYear, getMonth, ...) is a parameter `cal` that gives the
 * fields of an instant.
 */
module WebTime {
  import opened Wrappers
  import opened Strings

  /** The local calendar fields of a Date; `month` is 0-based as getMonth returns it. */
  datatype DateFields = DateFields(year: int, month: nat, day: nat, hours: nat, minutes: nat, seconds: nat)

  predicate WellFormed(f: DateFields) {
    f.month < 12 && 1 <= f.day <= 31 && f.hours < 24 && f.minutes < 60 && f.seconds < 60
  }

  const SecondMs: int := 1000
  const MinuteMs: int := 60 * SecondMs
  const HourMs: int := 60 * MinuteMs
  const DayMs: int := 24 * HourMs

  /** convertTimestampToDate: null for an undefined timestamp, else its instant. */
  function ConvertTimestampToDate(ts: Option<int>): (date: Option<int>)
    ensures date.None? <==> ts.None?
    ensures ts.Some? ==> date.value == ts.value
  {
    ts
  }

  /** String(n).padStart(2, '0') */
  function Pad2(n: nat): string {
    PadStart2(NatToString(n))
  }

  /** A field below 100 prints as exactly two digits that read back as the field. */
  lemma Pad2Digits(n: nat)
    requires n < 100
    ensures |Pad2(n)| == 2 && IsDigit(Pad2(n)[0]) && IsDigit(Pad2(n)[1])
    ensures DigitsValue(Pad2(n)) == n
  {
    var p := Pad2(n);
    if n < 10 {
      assert p == ['0', DigitChar(n)];
      assert p[..1] == ['0'] && ['0'][..0] == [];
    } else {
      assert NatToString(n) == NatToString(n / 10) + [DigitChar(n % 10)];
      assert p == NatToString(n);
      NatToStringValue(n);
    }
  }

  /** "-MM-DD" */
  function DatePart(f: DateFields): string {
    "-" + Pad2(f.month + 1) + "-" + Pad2(f.day)
  }

  /** " HH:mm:ss" */
  function TimePart(f: DateFields): string {
    " " + Pad2(f.hours) + ":" + Pad2(f.minutes) + ":" + Pad2(f.seconds)
  }

  /** formatTimestampDate: YYYY-MM-DD in local time, or "-". */
  function FormatTimestampDate(ts: Option<int>, cal: int -> DateFields): (r: string)
    ensures ts.None? <==> r == "-"
  {
    match ConvertTimestampToDate(ts)
    case None => "-"
    case Some(t) =>
      SignVisible(cal(t).year);
      IntToString(cal(t).year) + DatePart(cal(t))
  }

  /** formatTimestamp: YYYY-MM-DD HH:mm:ss in local time, or "-". */
  function FormatTimestamp(ts: Option<int>, cal: int -> DateFields): (r: string)
    ensures ts.None? <==> r == "-"
    ensures ts.Some? ==> r == FormatTimestampDate(ts, cal) + TimePart(cal(ts.value))
  {
    match ConvertTimestampToDate(ts)
    case None => "-"
    case Some(t) =>
      SignVisible(cal(t).year);
      IntToString(cal(t).year) + DatePart(cal(t)) + TimePart(cal(t))
  }

  /** Where the pieces of "-" + a + "-" + b sit when the fields have two characters each. */
  lemma DateSlices(a: string, b: string)
    requires |a| == 2 && |b| == 2
    ensures var d := "-" + a + "-" + b;
      |d| == 6 && d[0] == '-' && d[3] == '-' && d[1..3] == a && d[4..6] == b
  {
  }

  /** Where the pieces of " " + a + ":" + b + ":" + c sit when the fields have two characters each. */
  lemma TimeSlices(a: string, b: string, c: string)
    requires |a| == 2 && |b| == 2 && |c| == 2
    ensures var p := " " + a + ":" + b + ":" + c;
      |p| == 9 && p[0] == ' ' && p[3] == ':' && p[6] == ':' && p[1..3] == a && p[4..6] == b && p[7..9] == c
  {
    var q := " " + a + ":" + b;
    assert q[1..3] == a && q[4..6] == b;
    var p := q + ":" + c;
    assert p[..6] == q;
    assert p[7..9] == c;
  }

  /** The year sits before the last 15 characters, the date part and the time part after it. */
  lemma StampSlices(y: string, d: string, p: string)
    requires |d| == 6 && |p| == 9
    ensures var r := y + d + p;
      |r| == |y| + 15 && r[..|r| - 15] == y && r[|r| - 15..|r| - 9] == d && r[|r| - 9..] == p
  {
    var r := y + d + p;
    assert r[..|y|] == y;
    assert r[|y|..|y| + 6] == d;
  }

  /** A slice of a slice is a slice of the whole. */
  lemma SliceOfSlice(r: string, k: nat, n: nat, i: nat, j: nat)
    requires k + n <= |r| && i <= j <= n
    ensures r[k..k + n][i..j] == r[k + i..k + j]
  {
    var a, b := r[k..k + n][i..j], r[k + i..k + j];
    assert |a| == |b|;
    forall x | 0 <= x < |a|
      ensures a[x] == b[x]
    {
      assert a[x] == r[k..k + n][i + x] == r[k + i + x];
    }
  }

  /** year + "-MM-DD" + " HH:mm:ss", the shape FormatTimestamp prints. */
  function Stamp(y: string, mo: string, dd: string, hh: string, mi: string, ss: string): string {
    y + ("-" + mo + "-" + dd) + (" " + hh + ":" + mi + ":" + ss)
  }

  /** Where every piece of a stamp sits, for two-character fields. */
  lemma StampLayout(y: string, mo: string, dd: string, hh: string, mi: string, ss: string)
    requires |mo| == 2 && |dd| == 2 && |hh| == 2 && |mi| == 2 && |ss| == 2
    ensures var r := Stamp(y, mo, dd, hh, mi, ss);
      |r| == |y| + 15 && r[..|r| - 15] == y &&
      r[|r| - 15] == '-' && r[|r| - 12] == '-' && r[|r| - 9] == ' ' && r[|r| - 6] == ':' && r[|r| - 3] == ':' &&
      r[|r| - 14..|r| - 12] == mo && r[|r| - 11..|r| - 9] == dd &&
      r[|r| - 8..|r| - 6] == hh && r[|r| - 5..|r| - 3] == mi && r[|r| - 2..] == ss
  {
    var d, p := "-" + mo + "-" + dd, " " + hh + ":" + mi + ":" + ss;
    DateSlices(mo, dd);
    TimeSlices(hh, mi, ss);
    StampSlices(y, d, p);
    var r := y + d + p;
    var k := |y|;
    assert r[k..k + 6] == d && r[k + 6..k + 15] == p;
    assert r[k] == d[0] && r[k + 3] == d[3];
    assert r[k + 6] == p[0] && r[k + 9] == p[3] && r[k + 12] == p[6];
    SliceOfSlice(r, k, 6, 1, 3);
    SliceOfSlice(r, k, 6, 4, 6);
    SliceOfSlice(r, k + 6, 9, 1, 3);
    SliceOfSlice(r, k + 6, 9, 4, 6);
    SliceOfSlice(r, k + 6, 9, 7, 9);
  }

  /** Equal stamps with two-character fields have equal pieces. */
  lemma StampInjective(y: string, mo: string, dd: string, hh: string, mi: string, ss: string,
                       y': string, mo': string, dd': string, hh': string, mi': string, ss': string)
    requires |mo| == 2 && |dd| == 2 && |hh| == 2 && |mi| == 2 && |ss| == 2
    requires |mo'| == 2 && |dd'| == 2 && |hh'| == 2 && |mi'| == 2 && |ss'| == 2
    requires Stamp(y, mo, dd, hh, mi, ss) == Stamp(y', mo', dd', hh', mi', ss')
    ensures y == y' && mo == mo' && dd == dd' && hh == hh' && mi == mi' && ss == ss'
  {
    StampLayout(y, mo, dd, hh, mi, ss);
    StampLayout(y', mo', dd', hh', mi', ss');
  }

  /** The formatted string is the stamp of the year and the two-digit paddings of the other fields. */
  lemma FormatIsStamp(t: int, cal: int -> DateFields)
    requires WellFormed(cal(t))
    ensures var f := cal(t);
      |Pad2(f.month + 1)| == 2 && |Pad2(f.day)| == 2 && |Pad2(f.hours)| == 2 &&
      |Pad2(f.minutes)| == 2 && |Pad2(f.seconds)| == 2 &&
      FormatTimestamp(Some(t), cal) ==
        Stamp(IntToString(f.year), Pad2(f.month + 1), Pad2(f.day), Pad2(f.hours), Pad2(f.minutes), Pad2(f.seconds))
  {
    var f := cal(t);
    Pad2Digits(f.month + 1);
    Pad2Digits(f.day);
    Pad2Digits(f.hours);
    Pad2Digits(f.minutes);
    Pad2Digits(f.seconds);
  }

  /**
   * The formatted string has the year, then "-MM-DD HH:mm:ss" in its last 15
   * characters, each field printed as its two-digit padding (which reads back
   * as the field, Pad2Digits).
   */
  lemma FormatTimestampReadsBack(t: int, cal: int -> DateFields)
    requires WellFormed(cal(t))
    ensures var r, f := FormatTimestamp(Some(t), cal), cal(t);
      |r| >= 16 && r[..|r| - 15] == IntToString(f.year) &&
      r[|r| - 15] == '-' && r[|r| - 12] == '-' && r[|r| - 9] == ' ' && r[|r| - 6] == ':' && r[|r| - 3] == ':' &&
      r[|r| - 14..|r| - 12] == Pad2(f.month + 1) && r[|r| - 11..|r| - 9] == Pad2(f.day) &&
      r[|r| - 8..|r| - 6] == Pad2(f.hours) && r[|r| - 5..|r| - 3] == Pad2(f.minutes) &&
      r[|r| - 2..] == Pad2(f.seconds)
  {
    var f := cal(t);
    FormatIsStamp(t, cal);
    SignVisible(f.year);
    StampLayout(IntToString(f.year), Pad2(f.month + 1), Pad2(f.day), Pad2(f.hours), Pad2(f.minutes), Pad2(f.seconds));
  }

  /** Two-digit paddings of fields below 100 differ when the fields do. */
  lemma Pad2Injective(m: nat, n: nat)
    requires m < 100 && n < 100 && Pad2(m) == Pad2(n)
    ensures m == n
  {
    Pad2Digits(m);
    Pad2Digits(n);
  }

  /** Two instants that format alike have the same calendar fields. */
  lemma FormatTimestampInjective(a: int, b: int, cal: int -> DateFields)
    requires WellFormed(cal(a)) && WellFormed(cal(b))
    requires FormatTimestamp(Some(a), cal) == FormatTimestamp(Some(b), cal)
    ensures cal(a) == cal(b)
  {
    var fa, fb := cal(a), cal(b);
    FormatIsStamp(a, cal);
    FormatIsStamp(b, cal);
    StampInjective(IntToString(fa.year), Pad2(fa.month + 1), Pad2(fa.day), Pad2(fa.hours), Pad2(fa.minutes), Pad2(fa.seconds),
                   IntToString(fb.year), Pad2(fb.month + 1), Pad2(fb.day), Pad2(fb.hours), Pad2(fb.minutes), Pad2(fb.seconds));
    IntToStringInjective(fa.year, fb.year);
    Pad2Injective(fa.month + 1, fb.month + 1);
    Pad2Injective(fa.day, fb.day);
    Pad2Injective(fa.hours, fb.hours);
    Pad2Injective(fa.minutes, fb.minutes);
    Pad2Injective(fa.seconds, fb.seconds);
  }

  /**
   * formatRelativeTime: the elapsed time since the timestamp, floored to whole
   * seconds, minutes, hours and days, in the first band it falls in.
   */
  function FormatRelativeTime(ts: Option<int>, now: int, cal: int -> DateFields): (r: string)
    ensures ts.None? <==> r == "-"
  {
    match ConvertTimestampToDate(ts)
    case None => "-"
    case Some(t) =>
      var diffSecs := (now - t) / 1000;
      var diffMins := diffSecs / 60;
      var diffHours := diffMins / 60;
      var diffDays := diffHours / 24;
      if diffSecs < 60 then "刚刚"
      else if diffMins < 60 then IntToString(diffMins) + "分钟前"
      else if diffHours < 24 then IntToString(diffHours) + "小时前"
      else if diffDays < 30 then IntToString(diffDays) + "天前"
      else
        assert FormatTimestampDate(ts, cal) != "-";
        FormatTimestampDate(ts, cal)
  }

  /** Flooring in steps is flooring once: Math.floor(Math.floor(e / a) / b) == Math.floor(e / (a * b)). */
  lemma FloorSteps(e: int)
    ensures (e / 1000) / 60 == e / MinuteMs
    ensures ((e / 1000) / 60) / 60 == e / HourMs
    ensures (((e / 1000) / 60) / 60) / 24 == e / DayMs
  {
  }

  /**
   * The bands by elapsed milliseconds e = now - t: under a minute (a future
   * timestamp included) "刚刚"; then whole minutes, hours and days, each the
   * floor of e; from 30 days on the date.
   */
  lemma RelativeTimeBands(t: int, now: int, cal: int -> DateFields)
    ensures var e, r := now - t, FormatRelativeTime(Some(t), now, cal);
      (e < MinuteMs ==> r == "刚刚") &&
      (MinuteMs <= e < HourMs ==> r == IntToString(e / MinuteMs) + "分钟前") &&
      (HourMs <= e < DayMs ==> r == IntToString(e / HourMs) + "小时前") &&
      (DayMs <= e < 30 * DayMs ==> r == IntToString(e / DayMs) + "天前") &&
      (30 * DayMs <= e ==> r == FormatTimestampDate(Some(t), cal))
  {
    FloorSteps(now - t);
  }

  /** In every counted band the count is at least 1 and below the next unit. */
  lemma RelativeCountsInRange(t: int, now: int)
    ensures var e := now - t;
      (MinuteMs <= e < HourMs ==> 1 <= e / MinuteMs < 60) &&
      (HourMs <= e < DayMs ==> 1 <= e / HourMs < 24) &&
      (DayMs <= e < 30 * DayMs ==> 1 <= e / DayMs < 30)
  {
  }

  /** isTimestampExpired: an undefined timestamp counts as expired; otherwise strictly before now. */
  function IsTimestampExpired(ts: Option<int>, now: int): (expired: bool)
    ensures ts.None? ==> expired
  {
    match ConvertTimestampToDate(ts)
    case None => true
    case Some(t) => t < now
  }

  /** getRemainingTime: milliseconds left, never negative; 0 for an undefined timestamp. */
  function GetRemainingTime(ts: Option<int>, now: int): (remaining: int)
    ensures remaining >= 0
    ensures ts.None? ==> remaining == 0
    ensures ts.Some? ==> remaining >= ts.value - now && (remaining == 0 || remaining == ts.value - now)
  {
    match ConvertTimestampToDate(ts)
    case None => 0
    case Some(t) =>
      var r := t - now;
      if r > 0 then r else 0
  }

  /**
   * Expiry and remaining time agree except at the instant itself: time
   * remains exactly when the timestamp is not expired and not now.
   */
  lemma ExpiryAgreesWithRemaining(ts: Option<int>, now: int)
    ensures GetRemainingTime(ts, now) > 0 <==> !IsTimestampExpired(ts, now) && ts != Some(now)
    ensures IsTimestampExpired(ts, now) ==> GetRemainingTime(ts, now) == 0
  {
  }

  /** The instant of the timestamp is neither expired nor has time left. */
  lemma ExpiryInstant(t: int)
    ensures !IsTimestampExpired(Some(t), t) && GetRemainingTime(Some(t), t) == 0
  {
  }
}
