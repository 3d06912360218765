/** Stored timestamps: the text of `datetime.isoformat` at UTC offset zero, whose
    fraction is omitted when it is zero, and the order SQL compares it in. */
module Timestamps {
  import opened Tables
  import opened Text

  datatype DateTime = DateTime(year: nat, month: nat, day: nat, hour: nat, minute: nat, second: nat, micro: nat)

  predicate Leap(year: nat) {
    year % 4 == 0 && (year % 100 != 0 || year % 400 == 0)
  }

  function DaysInMonth(year: nat, month: nat): nat {
    if month == 2 then (if Leap(year) then 29 else 28)
    else if month in {4, 6, 9, 11} then 30
    else 31
  }

  /** The values `datetime` can hold. */
  predicate Valid(t: DateTime) {
    && 1 <= t.year <= 9999 && 1 <= t.month <= 12 && 1 <= t.day <= DaysInMonth(t.year, t.month)
    && t.hour < 24 && t.minute < 60 && t.second < 60 && t.micro < 1_000_000
  }

  // ---------------------------------------------------------------- text

  /** `n` in decimal, zero-padded to `width` digits. */
  function Digits(n: nat, width: nat): string {
    if width == 0 then "" else Digits(n / 10, width - 1) + ['0' + (n % 10) as char]
  }

  function Fraction(micro: nat): string {
    if micro == 0 then "+00:00" else "." + Digits(micro, 6) + "+00:00"
  }

  function UtcText(t: DateTime): string {
    Digits(t.year, 4) + ("-" + (Digits(t.month, 2) + ("-" + (Digits(t.day, 2) + ("T" + (Digits(t.hour, 2)
      + (":" + (Digits(t.minute, 2) + (":" + (Digits(t.second, 2) + Fraction(t.micro)))))))))))
  }

  function Pow10(w: nat): nat {
    if w == 0 then 1 else 10 * Pow10(w - 1)
  }

  lemma {:induction false} DigitsLength(n: nat, w: nat)
    ensures |Digits(n, w)| == w
  {
    if w > 0 { DigitsLength(n / 10, w - 1); }
  }

  /** Equally wide numerals compare as their numbers do. */
  lemma {:induction false} DigitsOrder(m: nat, n: nat, w: nat)
    requires m < Pow10(w) && n < Pow10(w)
    ensures Less(Digits(m, w), Digits(n, w)) <==> m < n
    ensures Digits(m, w) == Digits(n, w) <==> m == n
  {
    if w > 0 {
      DigitsLength(m / 10, w - 1);
      DigitsLength(n / 10, w - 1);
      DigitsOrder(m / 10, n / 10, w - 1);
      var p, q := ['0' + (m % 10) as char], ['0' + (n % 10) as char];
      assert Digits(m, w) == Digits(m / 10, w - 1) + p && Digits(n, w) == Digits(n / 10, w - 1) + q;
      if m / 10 == n / 10 {
        LessAfterPrefix(Digits(m / 10, w - 1), p, q);
        assert Digits(m, w)[w - 1] == p[0] && Digits(n, w)[w - 1] == q[0];
      } else {
        LessByHead(Digits(m / 10, w - 1), Digits(n / 10, w - 1), p, q);
        assert Digits(m, w)[..w - 1] == Digits(m / 10, w - 1) && Digits(n, w)[..w - 1] == Digits(n / 10, w - 1);
      }
    }
  }

  /** Two texts that begin with equally wide numerals. */
  lemma FieldOrder(m: nat, n: nat, w: nat, s: string, t: string)
    requires m < Pow10(w) && n < Pow10(w)
    ensures Less(Digits(m, w) + s, Digits(n, w) + t) <==> m < n || (m == n && Less(s, t))
  {
    DigitsOrder(m, n, w);
    DigitsLength(m, w);
    DigitsLength(n, w);
    if m == n {
      LessAfterPrefix(Digits(m, w), s, t);
    } else {
      LessByHead(Digits(m, w), Digits(n, w), s, t);
    }
  }

  lemma SeparatedFieldOrder(m: nat, n: nat, w: nat, separator: string, s: string, t: string)
    requires m < Pow10(w) && n < Pow10(w)
    ensures Less(Digits(m, w) + (separator + s), Digits(n, w) + (separator + t)) <==> m < n || (m == n && Less(s, t))
  {
    FieldOrder(m, n, w, separator + s, separator + t);
    LessAfterPrefix(separator, s, t);
  }

  /** An omitted fraction sorts before every written one, because '+' is below '.'. */
  lemma FractionOrder(m: nat, n: nat)
    requires m < 1_000_000 && n < 1_000_000
    ensures Less(Fraction(m), Fraction(n)) <==> m < n
  {
    assert Pow10(6) == 1_000_000 by { assert Pow10(4) == 10_000; }
    LessIsIrreflexive("+00:00");
    if m > 0 && n > 0 {
      LessAfterPrefix(".", Digits(m, 6) + "+00:00", Digits(n, 6) + "+00:00");
      FieldOrder(m, n, 6, "+00:00", "+00:00");
      assert Fraction(m) == "." + (Digits(m, 6) + "+00:00") && Fraction(n) == "." + (Digits(n, 6) + "+00:00");
    }
  }

  // --------------------------------------------------------- chronology

  /** Days before 1 January of a year, from 1 January of year 1. */
  function DaysBeforeYear(year: nat): nat
    requires year >= 1
  {
    var y := year - 1;
    365 * y + y / 4 - y / 100 + y / 400
  }

  function DaysBeforeMonth(year: nat, month: nat): nat
    requires 1 <= month <= 13
  {
    if month == 1 then 0 else DaysBeforeMonth(year, month - 1) + DaysInMonth(year, month - 1)
  }

  function Days(t: DateTime): nat
    requires Valid(t)
  {
    DaysBeforeYear(t.year) + DaysBeforeMonth(t.year, t.month) + t.day - 1
  }

  function Seconds(t: DateTime): nat
    requires Valid(t)
  {
    ((Days(t) * 24 + t.hour) * 60 + t.minute) * 60 + t.second
  }

  /** The instant a timestamp denotes, in microseconds since the first one. */
  function Micros(t: DateTime): Instant
    requires Valid(t)
  {
    Seconds(t) * 1_000_000 + t.micro
  }

  function YearLength(year: nat): nat {
    if Leap(year) then 366 else 365
  }

  /** The leap rule counts exactly the multiples that the closed form counts. */
  lemma LeapStep(year: nat)
    requires year >= 1
    ensures year / 4 == (year - 1) / 4 + if year % 4 == 0 then 1 else 0
    ensures year / 100 == (year - 1) / 100 + if year % 100 == 0 then 1 else 0
    ensures year / 400 == (year - 1) / 400 + if year % 400 == 0 then 1 else 0
  {
  }

  lemma ByFour(year: nat)
    requires year % 100 == 0
    ensures year % 4 == 0
  {
    var q, s, r := year / 100, year / 4, year % 4;
    assert year == 100 * q && year == 4 * s + r;
    assert r == 4 * (25 * q - s);
  }

  lemma ByHundred(year: nat)
    requires year % 400 == 0
    ensures year % 100 == 0
  {
    var q, s, r := year / 400, year / 100, year % 100;
    assert year == 400 * q && year == 100 * s + r;
    assert r == 100 * (4 * q - s);
  }

  lemma NextYear(year: nat)
    requires year >= 1
    ensures DaysBeforeYear(year + 1) == DaysBeforeYear(year) + YearLength(year)
  {
    LeapStep(year);
    if year % 400 == 0 { ByHundred(year); }
    if year % 100 == 0 { ByFour(year); }
  }

  lemma {:induction false} YearsInOrder(y: nat, z: nat)
    requires 1 <= y < z
    ensures DaysBeforeYear(y) + YearLength(y) <= DaysBeforeYear(z)
  {
    NextYear(z - 1);
    if y < z - 1 { YearsInOrder(y, z - 1); }
  }

  lemma {:induction false} MonthsInOrder(year: nat, m: nat, n: nat)
    requires 1 <= m < n <= 13
    ensures DaysBeforeMonth(year, m) + DaysInMonth(year, m) <= DaysBeforeMonth(year, n)
  {
    if m < n - 1 { MonthsInOrder(year, m, n - 1); }
  }

  lemma MonthsFillYear(year: nat)
    ensures DaysBeforeMonth(year, 13) == YearLength(year)
  {
    var february := DaysInMonth(year, 2);
    assert DaysBeforeMonth(year, 2) == 31;
    assert DaysBeforeMonth(year, 3) == 31 + february;
    assert DaysBeforeMonth(year, 5) == 92 + february;
    assert DaysBeforeMonth(year, 7) == 153 + february;
    assert DaysBeforeMonth(year, 9) == 215 + february;
    assert DaysBeforeMonth(year, 11) == 276 + february;
  }

  /** A day falls inside its month, which falls inside its year. */
  lemma DayInYear(t: DateTime)
    requires Valid(t)
    ensures DaysBeforeYear(t.year) <= Days(t) < DaysBeforeYear(t.year) + YearLength(t.year)
  {
    MonthsInOrder(t.year, t.month, 13);
    MonthsFillYear(t.year);
  }

  predicate DateBefore(a: DateTime, b: DateTime) {
    a.year < b.year || (a.year == b.year && (a.month < b.month || (a.month == b.month && a.day < b.day)))
  }

  lemma EarlierDate(a: DateTime, b: DateTime)
    requires Valid(a) && Valid(b) && DateBefore(a, b)
    ensures Days(a) < Days(b)
  {
    if a.year < b.year {
      DayInYear(a);
      DayInYear(b);
      YearsInOrder(a.year, b.year);
    } else if a.month < b.month {
      MonthsInOrder(a.year, a.month, b.month);
    }
  }

  lemma DateOrder(a: DateTime, b: DateTime)
    requires Valid(a) && Valid(b)
    ensures Days(a) < Days(b) <==> DateBefore(a, b)
    ensures Days(a) == Days(b) <==> a.year == b.year && a.month == b.month && a.day == b.day
  {
    if DateBefore(a, b) { EarlierDate(a, b); }
    if DateBefore(b, a) { EarlierDate(b, a); }
  }

  predicate TimeBefore(a: DateTime, b: DateTime) {
    || a.hour < b.hour
    || (a.hour == b.hour && (a.minute < b.minute || (a.minute == b.minute &&
          (a.second < b.second || (a.second == b.second && a.micro < b.micro)))))
  }

  lemma TimeOrder(a: DateTime, b: DateTime)
    requires Valid(a) && Valid(b)
    ensures Micros(a) < Micros(b) <==> Days(a) < Days(b) || (Days(a) == Days(b) && TimeBefore(a, b))
  {
  }

  lemma TextOrder(a: DateTime, b: DateTime)
    requires Valid(a) && Valid(b)
    ensures Less(UtcText(a), UtcText(b)) <==>
              DateBefore(a, b) || (a.year == b.year && a.month == b.month && a.day == b.day && TimeBefore(a, b))
  {
    assert Pow10(2) == 100 && Pow10(4) == 10_000;
    FractionOrder(a.micro, b.micro);
    var s, t := Fraction(a.micro), Fraction(b.micro);
    FieldOrder(a.second, b.second, 2, s, t);
    s, t := Digits(a.second, 2) + s, Digits(b.second, 2) + t;
    SeparatedFieldOrder(a.minute, b.minute, 2, ":", s, t);
    s, t := Digits(a.minute, 2) + (":" + s), Digits(b.minute, 2) + (":" + t);
    SeparatedFieldOrder(a.hour, b.hour, 2, ":", s, t);
    s, t := Digits(a.hour, 2) + (":" + s), Digits(b.hour, 2) + (":" + t);
    SeparatedFieldOrder(a.day, b.day, 2, "T", s, t);
    s, t := Digits(a.day, 2) + ("T" + s), Digits(b.day, 2) + ("T" + t);
    SeparatedFieldOrder(a.month, b.month, 2, "-", s, t);
    s, t := Digits(a.month, 2) + ("-" + s), Digits(b.month, 2) + ("-" + t);
    SeparatedFieldOrder(a.year, b.year, 4, "-", s, t);
  }

  /** Comparing stored timestamps as text compares the instants they denote. */
  lemma TextOrderIsChronological(a: DateTime, b: DateTime)
    requires Valid(a) && Valid(b)
    ensures Less(UtcText(a), UtcText(b)) <==> Micros(a) < Micros(b)
    ensures UtcText(a) == UtcText(b) <==> a == b
    ensures Micros(a) == Micros(b) <==> a == b
  {
    TextOrder(a, b);
    TextOrder(b, a);
    DateOrder(a, b);
    DateOrder(b, a);
    TimeOrder(a, b);
    TimeOrder(b, a);
    LessIsIrreflexive(UtcText(a));
    LessIsTotal(UtcText(a), UtcText(b));
  }

  /** The last timestamp `datetime` can hold is the model's last instant. */
  lemma LastInstant(t: DateTime)
    requires Valid(t)
    ensures Micros(t) <= MAX_INSTANT
    ensures Micros(DateTime(9999, 12, 31, 23, 59, 59, 999999)) == MAX_INSTANT
  {
    var last := DateTime(9999, 12, 31, 23, 59, 59, 999999);
    MonthsFillYear(9999);
    assert Days(last) == DaysBeforeYear(10000) - 1 == 3652058;
    DateOrder(last, t);
    TimeOrder(last, t);
  }

  /** Where a text of this shape has its separators. */
  predicate IsoShape(s: string) {
    && |s| >= 25 && s[4] == '-' && s[7] == '-' && s[10] == 'T' && s[13] == ':' && s[16] == ':'
    && (s[19] == '+' || s[19] == '.') && s[|s| - 6..] == "+00:00"
  }

  lemma DayShape(y: string, mo: string, d: string, rest: string)
    requires |y| == 4 && |mo| == |d| == 2
    ensures var s := y + ("-" + (mo + ("-" + (d + ("T" + rest)))));
            |s| == 11 + |rest| && s[4] == '-' && s[7] == '-' && s[10] == 'T' && s[11..] == rest
  {
  }

  lemma HourShape(h: string, mi: string, sec: string, f: string)
    requires |h| == |mi| == |sec| == 2
    ensures var s := h + (":" + (mi + (":" + (sec + f)))); |s| == 8 + |f| && s[2] == ':' && s[5] == ':' && s[8..] == f
  {
  }

  lemma FractionShape(micro: nat)
    ensures var f := Fraction(micro); f[|f| - 6..] == "+00:00" && |f| == (if micro == 0 then 6 else 13)
    ensures Fraction(micro)[0] == if micro == 0 then '+' else '.'
  {
    DigitsLength(micro, 6);
  }

  /** Every stored timestamp has the ISO shape, with a fraction of six digits or none. */
  lemma TextHasIsoShape(t: DateTime)
    ensures IsoShape(UtcText(t)) && |UtcText(t)| == if t.micro == 0 then 25 else 32
    ensures UtcText(t)[19] == if t.micro == 0 then '+' else '.'
  {
    DigitsLength(t.year, 4);
    DigitsLength(t.month, 2);
    DigitsLength(t.day, 2);
    DigitsLength(t.hour, 2);
    DigitsLength(t.minute, 2);
    DigitsLength(t.second, 2);
    FractionShape(t.micro);
    var f := Fraction(t.micro);
    var time := Digits(t.hour, 2) + (":" + (Digits(t.minute, 2) + (":" + (Digits(t.second, 2) + f))));
    HourShape(Digits(t.hour, 2), Digits(t.minute, 2), Digits(t.second, 2), f);
    DayShape(Digits(t.year, 4), Digits(t.month, 2), Digits(t.day, 2), time);
    var s := UtcText(t);
    assert s[11..] == time && time[8..] == f;
    assert s[13] == time[2] && s[16] == time[5] && s[19] == time[8] == f[0];
    assert s[|s| - 6..] == f[|f| - 6..];
  }
}
