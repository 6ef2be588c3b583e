/**
 * The string shapes the request schemas accept: the UUID pattern shared by
 * every schema file, the `HH:MM:SS` time pattern with its conversion to
 * seconds, and the `YYYY-MM-DD` date pattern. Each pattern is written as a
 * predicate over character positions, the way the regular expression reads,
 * and is paired with a structured value, a renderer and a parser proved to be
 * inverse to each other.
 */
module Formats {

  predicate IsDigit(c: char) {
    '0' <= c <= '9'
  }

  /** A hexadecimal digit; the UUID pattern carries the `i` flag, so both cases count. */
  predicate IsHex(c: char) {
    IsDigit(c) || 'a' <= c <= 'f' || 'A' <= c <= 'F'
  }

  predicate AllDigits(s: string) {
    forall i :: 0 <= i < |s| ==> IsDigit(s[i])
  }

  predicate AllHex(s: string) {
    forall i :: 0 <= i < |s| ==> IsHex(s[i])
  }

  function DigitValue(c: char): (d: nat)
    requires IsDigit(c)
    ensures d < 10
  {
    c as int - '0' as int
  }

  function DigitChar(d: nat): (c: char)
    requires d < 10
    ensures IsDigit(c) && DigitValue(c) == d
  {
    ('0' as int + d) as char
  }

  function Pow10(k: nat): (p: nat)
    ensures p >= 1
  {
    if k == 0 then 1 else 10 * Pow10(k - 1)
  }

  /** `Number(s)` for a string of decimal digits (leading zeros allowed). */
  function Decimal(s: string): nat
    requires AllDigits(s)
  {
    if s == [] then 0 else Decimal(s[..|s| - 1]) * 10 + DigitValue(s[|s| - 1])
  }

  /** `n` written with exactly `width` digits, zero-padded on the left. */
  function Pad(n: nat, width: nat): (r: string)
    ensures |r| == width && AllDigits(r)
  {
    if width == 0 then "" else Pad(n / 10, width - 1) + [DigitChar(n % 10)]
  }

  lemma Pow10Values()
    ensures Pow10(2) == 100 && Pow10(4) == 10000
  {
    assert Pow10(1) == 10;
    assert Pow10(3) == 1000;
  }

  lemma {:induction false} DecimalBound(s: string)
    requires AllDigits(s)
    ensures Decimal(s) < Pow10(|s|)
  {
    if s != [] {
      DecimalBound(s[..|s| - 1]);
    }
  }

  /** Padding a number that fits in `width` digits and reading it back gives the number. */
  lemma {:induction false} DecimalOfPad(n: nat, width: nat)
    requires n < Pow10(width)
    ensures Decimal(Pad(n, width)) == n
  {
    if width > 0 {
      var p := Pad(n, width);
      assert p[..|p| - 1] == Pad(n / 10, width - 1);
      DecimalOfPad(n / 10, width - 1);
    }
  }

  lemma DivModDigit(a: nat, d: nat)
    requires d < 10
    ensures (a * 10 + d) / 10 == a && (a * 10 + d) % 10 == d
  {
  }

  /** Reading a digit string and padding it back to its own width gives the string. */
  lemma {:induction false} PadOfDecimal(s: string)
    requires AllDigits(s)
    ensures Pad(Decimal(s), |s|) == s
  {
    if s != [] {
      var init, last := s[..|s| - 1], s[|s| - 1];
      PadOfDecimal(init);
      var n := Decimal(s);
      assert n == Decimal(init) * 10 + DigitValue(last);
      DivModDigit(Decimal(init), DigitValue(last));
      assert Pad(n, |s|) == Pad(n / 10, |s| - 1) + [DigitChar(n % 10)];
      assert DigitChar(DigitValue(last)) == last;
      assert s == init + [last];
    }
  }

  lemma Decimal1(s: string)
    requires |s| == 1 && AllDigits(s)
    ensures Decimal(s) == DigitValue(s[0])
  {
    assert s[..0] == [];
  }

  lemma Decimal2(s: string)
    requires |s| == 2 && AllDigits(s)
    ensures Decimal(s) == 10 * DigitValue(s[0]) + DigitValue(s[1])
  {
    assert s[..1] == [s[0]];
    Decimal1(s[..1]);
  }

  // ---------------------------------------------------------------- UUID

  predicate IsDashPosition(i: int) {
    i == 8 || i == 13 || i == 18 || i == 23
  }

  /**
   * The character allowed at position `i` by
   * `^[0-9a-f]{8}-[0-9a-f]{4}-[1-5][0-9a-f]{3}-[89ab][0-9a-f]{3}-[0-9a-f]{12}$` with flag `i`.
   */
  predicate UuidCharAt(i: int, c: char) {
    if IsDashPosition(i) then c == '-'
    else if i == 14 then '1' <= c <= '5'
    else if i == 19 then c in "89abAB"
    else IsHex(c)
  }

  /** The UUID pattern shared by the appointment, notification and id schemas. */
  predicate IsUuid(s: string) {
    |s| == 36 && forall i :: 0 <= i < 36 ==> UuidCharAt(i, s[i])
  }

  /** The five dash-separated groups of a UUID. */
  datatype UuidGroups = UuidGroups(timeLow: string, timeMid: string, timeHigh: string, clockSeq: string, node: string)

  /**
   * Groups of 8-4-4-4-12 hexadecimal digits, a version nibble in 1..5 and a
   * variant nibble in {8, 9, a, b} (either case).
   */
  predicate WellFormedGroups(g: UuidGroups) {
    && |g.timeLow| == 8 && |g.timeMid| == 4 && |g.timeHigh| == 4 && |g.clockSeq| == 4 && |g.node| == 12
    && AllHex(g.timeLow) && AllHex(g.timeMid) && AllHex(g.timeHigh) && AllHex(g.clockSeq) && AllHex(g.node)
    && '1' <= g.timeHigh[0] <= '5'
    && g.clockSeq[0] in "89abAB"
  }

  function RenderUuid(g: UuidGroups): string {
    g.timeLow + "-" + g.timeMid + "-" + g.timeHigh + "-" + g.clockSeq + "-" + g.node
  }

  function SplitUuid(s: string): UuidGroups
    requires |s| == 36
  {
    UuidGroups(s[..8], s[9..13], s[14..18], s[19..23], s[24..])
  }

  /** Every well-formed group tuple renders to an accepted UUID, and splitting gives the groups back. */
  lemma RenderUuidAccepted(g: UuidGroups)
    requires WellFormedGroups(g)
    ensures IsUuid(RenderUuid(g))
    ensures SplitUuid(RenderUuid(g)) == g
  {
    var s := RenderUuid(g);
    assert |s| == 36;
    assert s[..8] == g.timeLow;
    assert s[9..13] == g.timeMid;
    assert s[14..18] == g.timeHigh;
    assert s[19..23] == g.clockSeq;
    assert s[24..] == g.node;
    forall i | 0 <= i < 36
      ensures UuidCharAt(i, s[i])
    {
      if i < 8 {
        assert s[i] == g.timeLow[i];
      } else if 9 <= i < 13 {
        assert s[i] == g.timeMid[i - 9];
      } else if 14 <= i < 18 {
        assert s[i] == g.timeHigh[i - 14];
      } else if 19 <= i < 23 {
        assert s[i] == g.clockSeq[i - 19];
      } else if 24 <= i {
        assert s[i] == g.node[i - 24];
      }
    }
  }

  /** Outside the four dash positions an accepted UUID holds hexadecimal digits only. */
  lemma UuidGroupIsHex(s: string, lo: int, hi: int)
    requires IsUuid(s) && 0 <= lo <= hi <= 36
    requires forall i :: lo <= i < hi ==> !IsDashPosition(i)
    ensures AllHex(s[lo..hi])
  {
    forall k | 0 <= k < hi - lo
      ensures IsHex(s[lo..hi][k])
    {
      assert !IsDashPosition(lo + k) && UuidCharAt(lo + k, s[lo + k]);
    }
  }

  /** Every accepted UUID splits into well-formed groups that render back to it. */
  lemma SplitUuidWellFormed(s: string)
    requires IsUuid(s)
    ensures WellFormedGroups(SplitUuid(s))
    ensures RenderUuid(SplitUuid(s)) == s
  {
    var g := SplitUuid(s);
    UuidGroupIsHex(s, 0, 8);
    UuidGroupIsHex(s, 9, 13);
    UuidGroupIsHex(s, 14, 18);
    UuidGroupIsHex(s, 19, 23);
    UuidGroupIsHex(s, 24, 36);
    assert UuidCharAt(14, s[14]) && UuidCharAt(19, s[19]);
    assert g.timeHigh[0] == s[14] && g.clockSeq[0] == s[19];
    assert UuidCharAt(8, s[8]) && UuidCharAt(13, s[13]) && UuidCharAt(18, s[18]) && UuidCharAt(23, s[23]);
    assert s == s[..8] + [s[8]] + s[9..13] + [s[13]] + s[14..18] + [s[18]] + s[19..23] + [s[23]] + s[24..];
  }

  /** The UUID language is exactly the renderings of well-formed groups. */
  lemma UuidIsGroups(s: string)
    ensures IsUuid(s) <==> exists g :: WellFormedGroups(g) && RenderUuid(g) == s
  {
    if IsUuid(s) {
      SplitUuidWellFormed(s);
    }
    if exists g :: WellFormedGroups(g) && RenderUuid(g) == s {
      var g :| WellFormedGroups(g) && RenderUuid(g) == s;
      RenderUuidAccepted(g);
    }
  }

  // ---------------------------------------------------------------- time

  /** `:MM:SS` with `MM` and `SS` in the pattern `[0-5][0-9]`. */
  predicate ClockTail(t: string) {
    && |t| == 6
    && t[0] == ':' && '0' <= t[1] <= '5' && IsDigit(t[2])
    && t[3] == ':' && '0' <= t[4] <= '5' && IsDigit(t[5])
  }

  /** The two-character hour alternatives `[0-1][0-9]` and `2[0-3]`. */
  predicate HourPair(a: char, b: char) {
    ('0' <= a <= '1' && IsDigit(b)) || (a == '2' && '0' <= b <= '3')
  }

  /** `^([0-1]?[0-9]|2[0-3]):[0-5][0-9]:[0-5][0-9]$`, one hour alternative at a time. */
  predicate IsTime(s: string) {
    || (|s| == 7 && IsDigit(s[0]) && ClockTail(s[1..]))
    || (|s| == 8 && HourPair(s[0], s[1]) && ClockTail(s[2..]))
  }

  /**
   * The meaning of the time pattern field by field: an hour of one or two
   * digits worth at most 23, then `:MM:SS` with two-digit fields worth at most 59.
   */
  predicate ClockFields(s: string) {
    && 7 <= |s| <= 8
    && s[|s| - 6] == ':' && s[|s| - 3] == ':'
    && AllDigits(s[..|s| - 6]) && AllDigits(s[|s| - 5..|s| - 3]) && AllDigits(s[|s| - 2..])
    && Decimal(s[..|s| - 6]) <= 23
    && Decimal(s[|s| - 5..|s| - 3]) <= 59
    && Decimal(s[|s| - 2..]) <= 59
  }

  lemma TimePatternMeaning(s: string)
    ensures IsTime(s) <==> ClockFields(s)
  {
    if 7 <= |s| <= 8 {
      var hh, mm, ss := s[..|s| - 6], s[|s| - 5..|s| - 3], s[|s| - 2..];
      assert mm == [s[|s| - 5], s[|s| - 4]] && ss == [s[|s| - 2], s[|s| - 1]];
      if AllDigits(mm) { Decimal2(mm); }
      if AllDigits(ss) { Decimal2(ss); }
      if |s| == 7 {
        assert hh == [s[0]];
        if AllDigits(hh) { Decimal1(hh); }
      } else {
        assert hh == [s[0], s[1]];
        if AllDigits(hh) { Decimal2(hh); }
      }
    }
  }

  /** The boundary cases of the time pattern: no hour 24, minutes need two digits, the hour need not. */
  lemma TimePatternExamples()
    ensures !IsTime("24:00:00")
    ensures !IsTime("7:5:00")
    ensures IsTime("7:05:00")
    ensures IsTime("23:59:59") && IsTime("00:00:00")
  {
  }

  datatype Clock = Clock(hour: nat, minute: nat, second: nat)

  predicate ValidClock(c: Clock) {
    c.hour < 24 && c.minute < 60 && c.second < 60
  }

  /** The three numbers of `s.split(':').map(Number)` for an accepted time. */
  function ParseClock(s: string): (c: Clock)
    requires IsTime(s)
    ensures ValidClock(c)
  {
    TimePatternMeaning(s);
    Clock(Decimal(s[..|s| - 6]), Decimal(s[|s| - 5..|s| - 3]), Decimal(s[|s| - 2..]))
  }

  /** The canonical two-digit `HH:MM:SS` rendering. */
  function FormatClock(c: Clock): string
    requires ValidClock(c)
  {
    Pad(c.hour, 2) + ":" + Pad(c.minute, 2) + ":" + Pad(c.second, 2)
  }

  /** `h * 3600 + m * 60 + s`, the quantity the ordering refinement compares. */
  function ClockSeconds(c: Clock): nat {
    c.hour * 3600 + c.minute * 60 + c.second
  }

  function TimeSeconds(s: string): nat
    requires IsTime(s)
  {
    ClockSeconds(ParseClock(s))
  }

  /** Formatting a valid clock gives an accepted time that parses back to the same clock. */
  lemma FormatClockRoundTrip(c: Clock)
    requires ValidClock(c)
    ensures IsTime(FormatClock(c))
    ensures ParseClock(FormatClock(c)) == c
  {
    var s := FormatClock(c);
    var h, m, x := Pad(c.hour, 2), Pad(c.minute, 2), Pad(c.second, 2);
    assert s == h + ":" + m + ":" + x;
    assert |s| == 8 && s[2] == ':' && s[5] == ':';
    assert s[..2] == h && s[3..5] == m && s[6..] == x;
    Pow10Values();
    DecimalOfPad(c.hour, 2);
    DecimalOfPad(c.minute, 2);
    DecimalOfPad(c.second, 2);
    assert ClockFields(s);
    TimePatternMeaning(s);
  }

  /**
   * Parsing an accepted time and formatting it back gives the input, with a
   * leading zero added to a one-digit hour.
   */
  lemma ParseClockRoundTrip(s: string)
    requires IsTime(s)
    ensures FormatClock(ParseClock(s)) == if |s| == 7 then "0" + s else s
  {
    TimePatternMeaning(s);
    var hh, mm, ss := s[..|s| - 6], s[|s| - 5..|s| - 3], s[|s| - 2..];
    PadOfDecimal(mm);
    PadOfDecimal(ss);
    if |s| == 7 {
      Decimal1(hh);
      assert Pad(Decimal(hh), 2) == "0" + hh;
      assert s == hh + ":" + mm + ":" + ss;
    } else {
      PadOfDecimal(hh);
      assert s == hh + ":" + mm + ":" + ss;
    }
  }

  /** Lexicographic order on (hour, minute, second). */
  predicate ClockBefore(a: Clock, b: Clock) {
    || a.hour < b.hour
    || (a.hour == b.hour && a.minute < b.minute)
    || (a.hour == b.hour && a.minute == b.minute && a.second < b.second)
  }

  /** On valid clocks, comparing seconds since midnight is comparing the fields lexicographically. */
  lemma SecondsOrderIsClockOrder(a: Clock, b: Clock)
    requires ValidClock(a) && ValidClock(b)
    ensures ClockSeconds(a) < ClockSeconds(b) <==> ClockBefore(a, b)
    ensures ClockSeconds(a) == ClockSeconds(b) <==> a == b
  {
    var ra, rb := a.minute * 60 + a.second, b.minute * 60 + b.second;
    assert 0 <= ra < 3600 && 0 <= rb < 3600;
    assert ClockSeconds(a) == a.hour * 3600 + ra;
    assert ClockSeconds(b) == b.hour * 3600 + rb;
    if a.hour < b.hour {
      assert a.hour * 3600 + 3600 <= b.hour * 3600;
    } else if a.hour > b.hour {
      assert b.hour * 3600 + 3600 <= a.hour * 3600;
    }
  }

  /** Seconds since midnight of any valid clock fall within one day. */
  lemma ClockSecondsInDay(c: Clock)
    requires ValidClock(c)
    ensures ClockSeconds(c) < 86400
  {
    assert c.hour * 3600 <= 23 * 3600;
  }

  // ---------------------------------------------------------------- date

  /** `^\d{4}-\d{2}-\d{2}$`: shape only, any digits. */
  predicate IsDate(s: string) {
    && |s| == 10
    && AllDigits(s[..4]) && s[4] == '-'
    && AllDigits(s[5..7]) && s[7] == '-'
    && AllDigits(s[8..])
  }

  datatype CalendarFields = CalendarFields(year: nat, month: nat, day: nat)

  predicate FitsDatePattern(d: CalendarFields) {
    d.year < 10000 && d.month < 100 && d.day < 100
  }

  function FormatDate(d: CalendarFields): string {
    Pad(d.year, 4) + "-" + Pad(d.month, 2) + "-" + Pad(d.day, 2)
  }

  function ParseDate(s: string): CalendarFields
    requires IsDate(s)
  {
    CalendarFields(Decimal(s[..4]), Decimal(s[5..7]), Decimal(s[8..]))
  }

  lemma FormatDateRoundTrip(d: CalendarFields)
    requires FitsDatePattern(d)
    ensures IsDate(FormatDate(d))
    ensures ParseDate(FormatDate(d)) == d
  {
    var y, m, dd := Pad(d.year, 4), Pad(d.month, 2), Pad(d.day, 2);
    var s := FormatDate(d);
    assert s == y + "-" + m + "-" + dd;
    assert s[..4] == y;
    assert s[5..7] == m;
    assert s[8..] == dd;
    assert s[4] == '-' && s[7] == '-';
    Pow10Values();
    DecimalOfPad(d.year, 4);
    DecimalOfPad(d.month, 2);
    DecimalOfPad(d.day, 2);
  }

  lemma ParseDateRoundTrip(s: string)
    requires IsDate(s)
    ensures FitsDatePattern(ParseDate(s))
    ensures FormatDate(ParseDate(s)) == s
  {
    var y, m, d := s[..4], s[5..7], s[8..];
    Pow10Values();
    DecimalBound(y);
    DecimalBound(m);
    DecimalBound(d);
    PadOfDecimal(y);
    PadOfDecimal(m);
    PadOfDecimal(d);
    assert s == y + "-" + m + "-" + d;
  }
}
