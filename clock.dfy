/**
 * Naive Python `datetime` values as the core uses them: compared in
 * time order, formatted with `strftime` and `str`, and moved back one day
 * with `- timedelta(days=1)`.
 */
module Clock {
  import opened Wrappers
  import opened Strings

  datatype DateTime = DateTime(year: int, month: int, day: int, hour: int, minute: int, second: int)

  /** The proleptic Gregorian leap-year rule Python's `datetime` uses. */
  predicate IsLeapYear(y: int) {
    y % 4 == 0 && (y % 100 != 0 || y % 400 == 0)
  }

  function DaysInMonth(y: int, m: int): int {
    if m == 2 then (if IsLeapYear(y) then 29 else 28)
    else if m == 4 || m == 6 || m == 9 || m == 11 then 30
    else 31
  }

  /** The range Python's `datetime` accepts (`MINYEAR` 1 to `MAXYEAR` 9999). */
  predicate Valid(d: DateTime) {
    && 1 <= d.year <= 9999
    && 1 <= d.month <= 12
    && 1 <= d.day <= DaysInMonth(d.year, d.month)
    && 0 <= d.hour < 24
    && 0 <= d.minute < 60
    && 0 <= d.second < 60
  }

  /**
   * A key whose integer order is the chronological order of valid values:
   * each field is weighted above the whole range of the fields after it.
   */
  function Ordinal(d: DateTime): int {
    ((((d.year * 12 + (d.month - 1)) * 31 + (d.day - 1)) * 24 + d.hour) * 60 + d.minute) * 60 + d.second
  }

  /** Python's comparison of two `datetime` values: field by field, most significant first. */
  predicate Earlier(a: DateTime, b: DateTime) {
    || a.year < b.year
    || (a.year == b.year && a.month < b.month)
    || (a.year == b.year && a.month == b.month && a.day < b.day)
    || (a.year == b.year && a.month == b.month && a.day == b.day && a.hour < b.hour)
    || (a.year == b.year && a.month == b.month && a.day == b.day && a.hour == b.hour && a.minute < b.minute)
    || (a.year == b.year && a.month == b.month && a.day == b.day && a.hour == b.hour && a.minute == b.minute
        && a.second < b.second)
  }

  /** `k` copies of `b` are at least one copy. */
  lemma {:induction false} AtLeastOnce(k: int, b: int)
    requires k >= 1 && b > 0
    ensures k * b >= b
    decreases k
  {
    if k > 1 {
      AtLeastOnce(k - 1, b);
      assert k * b == (k - 1) * b + b;
    }
  }

  /** A digit of base `b` weighs less than one unit of the place above it. */
  lemma Place(x1: int, r1: int, x2: int, r2: int, b: int)
    requires b > 0 && 0 <= r1 < b && 0 <= r2 < b
    ensures x1 * b + r1 < x2 * b + r2 <==> x1 < x2 || (x1 == x2 && r1 < r2)
    ensures x1 * b + r1 == x2 * b + r2 <==> x1 == x2 && r1 == r2
  {
    if x1 < x2 {
      AtLeastOnce(x2 - x1, b);
      assert x2 * b == x1 * b + (x2 - x1) * b;
    } else if x1 > x2 {
      AtLeastOnce(x1 - x2, b);
      assert x1 * b == x2 * b + (x1 - x2) * b;
    }
  }

  /**
   * On valid values `Ordinal` orders exactly as Python compares datetimes,
   * and two values share an ordinal only when they are equal.
   */
  lemma OrdinalIsChronological(a: DateTime, b: DateTime)
    requires Valid(a) && Valid(b)
    ensures Ordinal(a) < Ordinal(b) <==> Earlier(a, b)
    ensures Ordinal(a) == Ordinal(b) <==> a == b
  {
    Place(a.year, a.month - 1, b.year, b.month - 1, 12);
    var ma, mb := a.year * 12 + (a.month - 1), b.year * 12 + (b.month - 1);
    Place(ma, a.day - 1, mb, b.day - 1, 31);
    var da, db := ma * 31 + (a.day - 1), mb * 31 + (b.day - 1);
    Place(da, a.hour, db, b.hour, 24);
    var ha, hb := da * 24 + a.hour, db * 24 + b.hour;
    Place(ha, a.minute, hb, b.minute, 60);
    var na, nb := ha * 60 + a.minute, hb * 60 + b.minute;
    Place(na, a.second, nb, b.second, 60);
  }

  function Pad(n: int, width: nat): string {
    if n < 0 then "-" + PadInt(-n, width) else PadInt(n, width)
  }

  /** `strftime('%Y%m%d')`. */
  function StampDate(d: DateTime): string {
    Pad(d.year, 4) + Pad(d.month, 2) + Pad(d.day, 2)
  }

  /** `%Y-%m-%d`, the date part both formats below start with. */
  function DateText(d: DateTime): string {
    Pad(d.year, 4) + "-" + Pad(d.month, 2) + "-" + Pad(d.day, 2)
  }

  /** `strftime('%Y-%m-%d %H:%M')`. */
  function FormatMinute(d: DateTime): string {
    DateText(d) + " " + Pad(d.hour, 2) + ":" + Pad(d.minute, 2)
  }

  /** `str(d)` of a naive `datetime` without microseconds: `%Y-%m-%d %H:%M:%S`. */
  function IsoString(d: DateTime): string {
    FormatMinute(d) + ":" + Pad(d.second, 2)
  }

  /** `s[i..i + w]` is `w` digits that read back as `n`. */
  predicate FieldAt(s: string, i: nat, w: nat, n: int) {
    i + w <= |s| && AllDigits(s[i..i + w]) && DigitsValue(s[i..i + w]) == n
  }

  /** A field below `10^width` prints as exactly `width` digits that read back as it. */
  lemma PadField(n: int, width: nat)
    requires 1 <= width && 0 <= n < Pow10(width)
    ensures |Pad(n, width)| == width && AllDigits(Pad(n, width)) && DigitsValue(Pad(n, width)) == n
  {
    FewDigits(n, width);
    PadIntValue(n, width);
  }

  /** Whether a field can be read in `s` depends only on the characters up to its end. */
  lemma FieldOfPrefix(s: string, t: string, i: nat, w: nat, n: int)
    requires FieldAt(t, i, w, n) && |t| <= |s| && s[..|t|] == t
    ensures FieldAt(s, i, w, n)
  {
    var a, b := s[i..i + w], t[i..i + w];
    forall k | 0 <= k < w
      ensures a[k] == b[k]
    {
      assert a[k] == s[i + k] == s[..|t|][i + k];
    }
    assert a == b;
  }

  /** `s` starts with a `%Y-%m-%d` date whose fields read back as those of `d`. */
  predicate DateAt(s: string, d: DateTime) {
    && |s| >= 10 && s[4] == '-' && s[7] == '-'
    && FieldAt(s, 0, 4, d.year) && FieldAt(s, 5, 2, d.month) && FieldAt(s, 8, 2, d.day)
  }

  /** `s` starts with `%Y-%m-%d %H:%M` whose fields read back as those of `d`. */
  predicate MinuteAt(s: string, d: DateTime) {
    && |s| >= 16 && DateAt(s, d) && s[10] == ' ' && s[13] == ':'
    && FieldAt(s, 11, 2, d.hour) && FieldAt(s, 14, 2, d.minute)
  }

  /** `strftime('%Y%m%d')` of a valid date is eight digits: the year, the month and the day. */
  lemma StampDateShape(d: DateTime)
    requires Valid(d)
    ensures var s := StampDate(d);
      |s| == 8 && AllDigits(s) && FieldAt(s, 0, 4, d.year) && FieldAt(s, 4, 2, d.month) && FieldAt(s, 6, 2, d.day)
  {
    assert Pow10(4) == 10000 && Pow10(2) == 100;
    PadField(d.year, 4);
    PadField(d.month, 2);
    PadField(d.day, 2);
    var s := StampDate(d);
    assert s[0..4] == Pad(d.year, 4);
    assert s[4..6] == Pad(d.month, 2);
    assert s[6..8] == Pad(d.day, 2);
  }

  /** The date part of a valid value is ten characters, each field readable at its place. */
  lemma DateTextShape(d: DateTime)
    requires Valid(d)
    ensures |DateText(d)| == 10 && DateAt(DateText(d), d)
  {
    assert Pow10(4) == 10000 && Pow10(2) == 100;
    PadField(d.year, 4);
    PadField(d.month, 2);
    PadField(d.day, 2);
    var s := DateText(d);
    assert s[0..4] == Pad(d.year, 4);
    assert s[5..7] == Pad(d.month, 2);
    assert s[8..10] == Pad(d.day, 2);
  }

  /** `strftime('%Y-%m-%d %H:%M')` of a valid value: 16 characters, each field readable at its place. */
  lemma FormatMinuteShape(d: DateTime)
    requires Valid(d)
    ensures |FormatMinute(d)| == 16 && MinuteAt(FormatMinute(d), d)
  {
    assert Pow10(2) == 100;
    PadField(d.hour, 2);
    PadField(d.minute, 2);
    DateTextShape(d);
    var t, s := DateText(d), FormatMinute(d);
    assert s[..10] == t;
    assert s[4] == t[4] && s[7] == t[7];
    FieldOfPrefix(s, t, 0, 4, d.year);
    FieldOfPrefix(s, t, 5, 2, d.month);
    FieldOfPrefix(s, t, 8, 2, d.day);
    assert s[11..13] == Pad(d.hour, 2);
    assert s[14..16] == Pad(d.minute, 2);
  }

  /** `str(d)` of a valid value: 19 characters, each field readable at its place. */
  lemma IsoStringShape(d: DateTime)
    requires Valid(d)
    ensures var s := IsoString(d);
      |s| == 19 && MinuteAt(s, d) && s[16] == ':' && FieldAt(s, 17, 2, d.second)
  {
    assert Pow10(2) == 100;
    PadField(d.second, 2);
    FormatMinuteShape(d);
    var t, s := FormatMinute(d), IsoString(d);
    assert s[..16] == t;
    assert s[4] == t[4] && s[7] == t[7] && s[10] == t[10] && s[13] == t[13];
    FieldOfPrefix(s, t, 0, 4, d.year);
    FieldOfPrefix(s, t, 5, 2, d.month);
    FieldOfPrefix(s, t, 8, 2, d.day);
    FieldOfPrefix(s, t, 11, 2, d.hour);
    FieldOfPrefix(s, t, 14, 2, d.minute);
    assert s[17..19] == Pad(d.second, 2);
  }

  /** `d - timedelta(days=1)`; Python raises `OverflowError` below 0001-01-01. */
  function MinusOneDay(d: DateTime): (r: Option<DateTime>)
    requires Valid(d)
    ensures r.None? <==> d.year == 1 && d.month == 1 && d.day == 1
    ensures r.Some? ==> Valid(r.value) && Ordinal(r.value) < Ordinal(d)
    ensures r.Some? ==> PlusOneDay(r.value) == d
  {
    if d.day > 1 then Some(d.(day := d.day - 1))
    else if d.month > 1 then Some(d.(month := d.month - 1, day := DaysInMonth(d.year, d.month - 1)))
    else if d.year > 1 then Some(d.(year := d.year - 1, month := 12, day := 31))
    else None
  }

  /** `d + timedelta(days=1)` on dates before 9999-12-31: the inverse used to check `MinusOneDay`. */
  function PlusOneDay(d: DateTime): DateTime {
    if d.day < DaysInMonth(d.year, d.month) then d.(day := d.day + 1)
    else if d.month < 12 then d.(month := d.month + 1, day := 1)
    else d.(year := d.year + 1, month := 1, day := 1)
  }
}
