/** Text order and instant order: the service compares timestamps as strings, the chain as Unix seconds. */
module TimeOrder {
  import opened Common

  // ---- Code-point order on strings, as Python and SQLite compare text ----

  predicate LexLess(a: string, b: string) {
    if b == "" then false
    else if a == "" then true
    else if a[0] != b[0] then a[0] < b[0]
    else LexLess(a[1..], b[1..])
  }

  lemma {:induction false} LexIrreflexive(a: string)
    ensures !LexLess(a, a)
  {
    if a != "" {
      LexIrreflexive(a[1..]);
    }
  }

  lemma {:induction false} LexTransitive(a: string, b: string, c: string)
    requires LexLess(a, b) && LexLess(b, c)
    ensures LexLess(a, c)
  {
    if a != "" && a[0] == b[0] && b[0] == c[0] {
      LexTransitive(a[1..], b[1..], c[1..]);
    }
  }

  lemma {:induction false} LexTotal(a: string, b: string)
    requires a != b
    ensures LexLess(a, b) || LexLess(b, a)
  {
    if a != "" && b != "" && a[0] == b[0] {
      assert a == [a[0]] + a[1..] && b == [b[0]] + b[1..];
      LexTotal(a[1..], b[1..]);
    }
  }

  /** Fixed-width fields compare one after the other. */
  lemma {:induction false} LexFields(p: string, q: string, x: string, y: string)
    requires |p| == |q|
    ensures LexLess(p + x, q + y) <==> (LexLess(p, q) || (p == q && LexLess(x, y)))
  {
    if p == "" {
      assert p + x == x && q + y == y;
    } else {
      assert (p + x)[1..] == p[1..] + x && (q + y)[1..] == q[1..] + y;
      LexFields(p[1..], q[1..], x, y);
      assert p == [p[0]] + p[1..] && q == [q[0]] + q[1..];
    }
  }

  // ---- Fixed-width decimal fields ----

  function Digit(n: nat): char
    requires n < 10
  {
    '0' + n as char
  }

  function DigitValue(c: char): Option<nat> {
    if '0' <= c <= '9' then Some((c - '0') as nat) else None
  }

  function Pad2(n: nat): string
    requires n < 100
  {
    [Digit(n / 10), Digit(n % 10)]
  }

  function Pad4(n: nat): string
    requires n < 10000
  {
    Pad2(n / 100) + Pad2(n % 100)
  }

  lemma Pad2Order(a: nat, b: nat)
    requires a < 100 && b < 100
    ensures LexLess(Pad2(a), Pad2(b)) <==> a < b
    ensures Pad2(a) == Pad2(b) <==> a == b
  {
    var s, t := Pad2(a), Pad2(b);
    assert s[1..] == [Digit(a % 10)] && t[1..] == [Digit(b % 10)];
    assert s[0] == Digit(a / 10) && t[0] == Digit(b / 10);
    assert s[1] == Digit(a % 10) && t[1] == Digit(b % 10);
    assert s[1..][1..] == "" && t[1..][1..] == "";
    assert LexLess(s[1..], t[1..]) <==> Digit(a % 10) < Digit(b % 10);
  }

  lemma Pad4Order(a: nat, b: nat)
    requires a < 10000 && b < 10000
    ensures LexLess(Pad4(a), Pad4(b)) <==> a < b
    ensures Pad4(a) == Pad4(b) <==> a == b
  {
    Pad2Order(a / 100, b / 100);
    Pad2Order(a % 100, b % 100);
    LexFields(Pad2(a / 100), Pad2(b / 100), Pad2(a % 100), Pad2(b % 100));
    if Pad4(a) == Pad4(b) {
      assert Pad4(a)[..2] == Pad2(a / 100) && Pad4(a)[2..] == Pad2(a % 100);
      assert Pad4(b)[..2] == Pad2(b / 100) && Pad4(b)[2..] == Pad2(b % 100);
    }
  }

  // ---- Instants, in UTC ----

  datatype Instant = Instant(year: nat, month: nat, day: nat, hour: nat, minute: nat, second: nat, micro: nat)

  predicate IsLeap(y: nat) {
    y % 4 == 0 && (y % 100 != 0 || y % 400 == 0)
  }

  function DaysInMonth(y: nat, m: nat): nat {
    if m == 2 then (if IsLeap(y) then 29 else 28)
    else if m in {4, 6, 9, 11} then 30
    else 31
  }

  predicate ValidInstant(t: Instant) {
    && 1 <= t.year <= 9999 && 1 <= t.month <= 12 && 1 <= t.day <= DaysInMonth(t.year, t.month)
    && t.hour < 24 && t.minute < 60 && t.second < 60 && t.micro < 1_000_000
  }

  /** The stored text: microseconds cut off, every field at its fixed width (section 5.6 of RFC 3339). */
  function ToRfc3339(t: Instant): string
    requires ValidInstant(t)
  {
    Pad4(t.year) + ("-" + (Pad2(t.month) + ("-" + (Pad2(t.day) + ("T" + ClockText(t))))))
  }

  function ClockText(t: Instant): string
    requires ValidInstant(t)
  {
    Pad2(t.hour) + (":" + (Pad2(t.minute) + (":" + (Pad2(t.second) + "Z"))))
  }

  function DaysBeforeYear(y: nat): nat
    requires y >= 1
  {
    (y - 1) * 365 + (y - 1) / 4 - (y - 1) / 100 + (y - 1) / 400
  }

  function DaysBeforeMonth(y: nat, m: nat): nat
    requires 1 <= m <= 12
  {
    if m == 1 then 0 else DaysBeforeMonth(y, m - 1) + DaysInMonth(y, m - 1)
  }

  const EPOCH_DAYS: int := 719162

  /** Whole Unix seconds of an instant, the number the chain stores. */
  function UnixSeconds(t: Instant): int
    requires ValidInstant(t)
  {
    DayNumber(t.year, t.month, t.day) * 86400 + SecondOfDay(t)
  }

  function DayNumber(y: nat, m: nat, d: nat): int
    requires y >= 1 && 1 <= m <= 12
  {
    DaysBeforeYear(y) + DaysBeforeMonth(y, m) + d - 1 - EPOCH_DAYS
  }

  function SecondOfDay(t: Instant): int {
    t.hour * 3600 + t.minute * 60 + t.second
  }

  // ---- Calendar order is second order ----

  lemma YearLength(y: nat)
    requires y >= 1
    ensures DaysBeforeYear(y + 1) == DaysBeforeYear(y) + (if IsLeap(y) then 366 else 365)
  {
    FloorStep(y, 4);
    FloorStep(y, 100);
    FloorStep(y, 400);
    MultiplesNest(y);
    assert DaysBeforeYear(y + 1) == y * 365 + y / 4 - y / 100 + y / 400;
  }

  lemma MultiplesNest(y: nat)
    ensures y % 400 == 0 ==> y % 100 == 0
    ensures y % 100 == 0 ==> y % 4 == 0
  {
    if y % 400 == 0 {
      QuotientUnique(y, 100, 4 * (y / 400), 0);
    }
    if y % 100 == 0 {
      QuotientUnique(y, 4, 25 * (y / 100), 0);
    }
  }

  lemma FloorStep(y: nat, d: nat)
    requires y >= 1 && d >= 2
    ensures y / d == (y - 1) / d + (if y % d == 0 then 1 else 0)
  {
    var q, r := (y - 1) / d, (y - 1) % d;
    assert y - 1 == d * q + r;
    if r == d - 1 {
      assert y == d * (q + 1);
      QuotientUnique(y, d, q + 1, 0);
    } else {
      QuotientUnique(y, d, q, r + 1);
    }
  }

  lemma ScaleMonotone(d: nat, a: nat, b: nat)
    ensures a <= b ==> d * a <= d * b
  {
  }

  lemma QuotientUnique(y: nat, d: nat, q: nat, r: nat)
    requires d >= 1 && r < d && y == d * q + r
    ensures y / d == q && y % d == r
  {
    var p, m := y / d, y % d;
    assert y == d * p + m;
    ScaleMonotone(d, p + 1, q);
    ScaleMonotone(d, q + 1, p);
  }

  lemma {:induction false} YearsGrow(y: nat, z: nat)
    requires 1 <= y < z
    ensures DaysBeforeYear(y) + (if IsLeap(y) then 366 else 365) <= DaysBeforeYear(z)
    decreases z - y
  {
    YearLength(y);
    if y + 1 < z {
      YearsGrow(y + 1, z);
    }
  }

  lemma {:induction false} MonthsGrow(y: nat, m: nat, n: nat)
    requires 1 <= m < n <= 12
    ensures DaysBeforeMonth(y, m) + DaysInMonth(y, m) <= DaysBeforeMonth(y, n)
    decreases n - m
  {
    if m + 1 < n {
      MonthsGrow(y, m, n - 1);
    }
  }

  lemma MonthEndInYear(y: nat, m: nat)
    requires 1 <= m <= 12
    ensures DaysBeforeMonth(y, m) + DaysInMonth(y, m) <= (if IsLeap(y) then 366 else 365)
  {
    if m < 12 {
      MonthsGrow(y, m, 12);
    }
    DaysBeforeDecember(y);
  }

  lemma DaysBeforeDecember(y: nat)
    ensures DaysBeforeMonth(y, 12) == if IsLeap(y) then 335 else 334
  {
    assert DaysBeforeMonth(y, 2) == DaysInMonth(y, 1);
    assert DaysBeforeMonth(y, 3) == DaysInMonth(y, 1) + DaysInMonth(y, 2);
    assert DaysBeforeMonth(y, 5) == DaysBeforeMonth(y, 3) + 61;
    assert DaysBeforeMonth(y, 7) == DaysBeforeMonth(y, 5) + 61;
    assert DaysBeforeMonth(y, 9) == DaysBeforeMonth(y, 7) + 62;
    assert DaysBeforeMonth(y, 11) == DaysBeforeMonth(y, 9) + 61;
  }

  predicate DateBefore(a: Instant, b: Instant) {
    || a.year < b.year
    || (a.year == b.year && a.month < b.month)
    || (a.year == b.year && a.month == b.month && a.day < b.day)
  }

  predicate SameDate(a: Instant, b: Instant) {
    a.year == b.year && a.month == b.month && a.day == b.day
  }

  predicate ClockBefore(a: Instant, b: Instant) {
    || a.hour < b.hour
    || (a.hour == b.hour && a.minute < b.minute)
    || (a.hour == b.hour && a.minute == b.minute && a.second < b.second)
  }

  lemma DateOrder(a: Instant, b: Instant)
    requires ValidInstant(a) && ValidInstant(b) && DateBefore(a, b)
    ensures DayNumber(a.year, a.month, a.day) < DayNumber(b.year, b.month, b.day)
  {
    if a.year < b.year {
      YearsGrow(a.year, b.year);
      MonthEndInYear(a.year, a.month);
    } else if a.month < b.month {
      MonthsGrow(a.year, a.month, b.month);
    }
  }

  lemma SecondOrder(a: Instant, b: Instant)
    requires ValidInstant(a) && ValidInstant(b)
    ensures UnixSeconds(a) < UnixSeconds(b) <==> (DateBefore(a, b) || (SameDate(a, b) && ClockBefore(a, b)))
  {
    var da, db := DayNumber(a.year, a.month, a.day), DayNumber(b.year, b.month, b.day);
    if DateBefore(a, b) {
      DateOrder(a, b);
    } else if DateBefore(b, a) {
      DateOrder(b, a);
    } else {
      assert da == db;
    }
  }

  // ---- Days and seconds ----

  /** The last day of its month, by the months' lengths. */
  predicate EndsMonth(t: Instant) {
    || (t.month in {1, 3, 5, 7, 8, 10, 12} && t.day == 31)
    || (t.month in {4, 6, 9, 11} && t.day == 30)
    || (t.month == 2 && t.day == if (t.year % 4 == 0 && t.year % 100 != 0) || t.year % 400 == 0 then 29 else 28)
  }

  /** The next date on the calendar: the next day, or the first of the next month or year. */
  predicate NextDate(a: Instant, b: Instant) {
    if !EndsMonth(a) then b.year == a.year && b.month == a.month && b.day == a.day + 1
    else if a.month < 12 then b.year == a.year && b.month == a.month + 1 && b.day == 1
    else b.year == a.year + 1 && b.month == 1 && b.day == 1
  }

  lemma MonthLength(t: Instant)
    requires ValidInstant(t)
    ensures EndsMonth(t) <==> t.day == DaysInMonth(t.year, t.month)
  {
  }

  lemma NextDayNumber(a: Instant, b: Instant)
    requires ValidInstant(a) && ValidInstant(b) && NextDate(a, b)
    ensures DayNumber(b.year, b.month, b.day) == DayNumber(a.year, a.month, a.day) + 1
  {
    MonthLength(a);
    if EndsMonth(a) && a.month == 12 {
      YearLength(a.year);
      DaysBeforeDecember(a.year);
    }
    hide IsLeap, DaysBeforeYear;
  }

  /** The same clock on the next calendar day is 86400 seconds later, over month ends, leap days and new years too. */
  lemma NextDayIsADayLater(a: Instant, b: Instant)
    requires ValidInstant(a) && ValidInstant(b) && NextDate(a, b)
    requires a.hour == b.hour && a.minute == b.minute && a.second == b.second
    ensures UnixSeconds(b) == UnixSeconds(a) + 86400
  {
    NextDayNumber(a, b);
    hide DayNumber, ValidInstant;
  }

  /** Within a day an hour counts 3600 seconds and a minute 60. */
  lemma ClockDifference(a: Instant, b: Instant)
    requires ValidInstant(a) && ValidInstant(b) && SameDate(a, b)
    ensures UnixSeconds(b) - UnixSeconds(a)
              == 3600 * (b.hour - a.hour) + 60 * (b.minute - a.minute) + (b.second - a.second)
  {
    hide DayNumber, ValidInstant;
  }

  lemma EpochDay()
    ensures DayNumber(1970, 1, 1) == 0
  {
    assert DaysBeforeYear(1970) == 719162;
    assert DaysBeforeMonth(1970, 1) == 0;
  }

  /** Seconds count from the first of January 1970. */
  lemma EpochTime(t: Instant)
    requires ValidInstant(t) && t.year == 1970 && t.month == 1 && t.day == 1 && t.hour == 0 && t.minute == 0
    ensures UnixSeconds(t) == t.second
  {
    EpochDay();
    hide DayNumber, ValidInstant;
  }

  // ---- Text order is calendar order ----

  lemma ClockTextOrder(a: Instant, b: Instant)
    requires ValidInstant(a) && ValidInstant(b)
    ensures LexLess(ClockText(a), ClockText(b)) <==> ClockBefore(a, b)
  {
    SeparatedField(a.hour, b.hour, ':', Pad2(a.minute) + (":" + (Pad2(a.second) + "Z")),
                   Pad2(b.minute) + (":" + (Pad2(b.second) + "Z")));
    SeparatedField(a.minute, b.minute, ':', Pad2(a.second) + "Z", Pad2(b.second) + "Z");
    SeparatedField(a.second, b.second, 'Z', "", "");
    assert Pad2(a.second) + ("Z" + "") == Pad2(a.second) + "Z";
    assert Pad2(b.second) + ("Z" + "") == Pad2(b.second) + "Z";
  }

  lemma SeparatedField(m: nat, n: nat, c: char, x: string, y: string)
    requires m < 100 && n < 100
    ensures LexLess(Pad2(m) + ([c] + x), Pad2(n) + ([c] + y)) <==> (m < n || (m == n && LexLess(x, y)))
  {
    Pad2Order(m, n);
    LexFields(Pad2(m), Pad2(n), [c] + x, [c] + y);
    SeparatorSkipped(c, x, y);
  }

  lemma SeparatorSkipped(c: char, x: string, y: string)
    ensures LexLess([c] + x, [c] + y) <==> LexLess(x, y)
  {
    assert ([c] + x)[1..] == x && ([c] + y)[1..] == y;
  }

  lemma TextOrder(a: Instant, b: Instant)
    requires ValidInstant(a) && ValidInstant(b)
    ensures LexLess(ToRfc3339(a), ToRfc3339(b)) <==> (DateBefore(a, b) || (SameDate(a, b) && ClockBefore(a, b)))
  {
    var ta, tb := ClockText(a), ClockText(b);
    var ma, mb := Pad2(a.month) + ("-" + (Pad2(a.day) + ("T" + ta))),
        Pad2(b.month) + ("-" + (Pad2(b.day) + ("T" + tb)));
    Pad4Order(a.year, b.year);
    LexFields(Pad4(a.year), Pad4(b.year), "-" + ma, "-" + mb);
    SeparatorSkipped('-', ma, mb);
    SeparatedField(a.month, b.month, '-', Pad2(a.day) + ("T" + ta), Pad2(b.day) + ("T" + tb));
    SeparatedField(a.day, b.day, 'T', ta, tb);
    ClockTextOrder(a, b);
  }

  /** The service's string test and the contract's integer test on the same window always give the same answer. */
  lemma WindowTestsAgree(a: Instant, b: Instant)
    requires ValidInstant(a) && ValidInstant(b)
    ensures LexLess(ToRfc3339(a), ToRfc3339(b)) <==> UnixSeconds(a) < UnixSeconds(b)
  {
    TextOrder(a, b);
    SecondOrder(a, b);
  }

  // ---- Reading the text back, as the chain script does ----

  function ReadDigits(s: string): Option<nat> {
    if s == "" then Some(0)
    else
      match (ReadDigits(s[..|s| - 1]), DigitValue(s[|s| - 1]))
      case (Some(high), Some(low)) => Some(10 * high + low)
      case _ => None
  }

  /** Whole seconds named by a timestamp in the stored format; None where the script throws. */
  function ParseUnixSeconds(s: string): Option<int> {
    if |s| != 20 || s[4] != '-' || s[7] != '-' || s[10] != 'T' || s[13] != ':' || s[16] != ':' || s[19] != 'Z' then None
    else
      match (ReadDigits(s[0..4]), ReadDigits(s[5..7]), ReadDigits(s[8..10]),
             ReadDigits(s[11..13]), ReadDigits(s[14..16]), ReadDigits(s[17..19]))
      case (Some(y), Some(m), Some(d), Some(h), Some(mi), Some(sec)) =>
        var t := Instant(y, m, d, h, mi, sec, 0);
        if ValidInstant(t) then Some(UnixSeconds(t)) else None
      case _ => None
  }

  lemma DigitRoundTrip(n: nat)
    requires n < 10
    ensures DigitValue(Digit(n)) == Some(n)
  {
  }

  lemma ReadPad2(n: nat)
    requires n < 100
    ensures ReadDigits(Pad2(n)) == Some(n)
  {
    var s := Pad2(n);
    assert s[..1] == [Digit(n / 10)] && s[..1][..0] == "";
    DigitRoundTrip(n / 10);
    DigitRoundTrip(n % 10);
    assert ReadDigits(s[..1]) == Some(n / 10);
  }

  lemma ReadPad4(n: nat)
    requires n < 10000
    ensures ReadDigits(Pad4(n)) == Some(n)
  {
    var s := Pad4(n);
    var low := n % 100;
    ReadPad2(n / 100);
    DigitRoundTrip(low / 10);
    DigitRoundTrip(low % 10);
    assert s[..3][..2] == Pad2(n / 100) && s[..3][2] == Digit(low / 10);
    assert ReadDigits(s[..3]) == Some(10 * (n / 100) + low / 10);
    assert s[3] == Digit(low % 10);
  }

  lemma FieldsOfText(t: Instant)
    requires ValidInstant(t)
    ensures var s := ToRfc3339(t);
            && |s| == 20
            && s[4] == '-' && s[7] == '-' && s[10] == 'T' && s[13] == ':' && s[16] == ':' && s[19] == 'Z'
            && s[0..4] == Pad4(t.year) && s[5..7] == Pad2(t.month) && s[8..10] == Pad2(t.day)
            && s[11..13] == Pad2(t.hour) && s[14..16] == Pad2(t.minute) && s[17..19] == Pad2(t.second)
  {
    var s, c := ToRfc3339(t), ClockText(t);
    assert |c| == 9 && c[2] == ':' && c[5] == ':' && c[8] == 'Z';
    assert c[0..2] == Pad2(t.hour) && c[3..5] == Pad2(t.minute) && c[6..8] == Pad2(t.second);
    assert s[11..] == c;
    assert s[11..13] == c[0..2] && s[14..16] == c[3..5] && s[17..19] == c[6..8];
    assert s[13] == c[2] && s[16] == c[5] && s[19] == c[8];
  }

  /** What the script reads back is the instant's whole Unix second. */
  lemma ParseInvertsText(t: Instant)
    requires ValidInstant(t)
    ensures ParseUnixSeconds(ToRfc3339(t)) == Some(UnixSeconds(t))
  {
    FieldsOfText(t);
    ReadPad4(t.year);
    ReadPad2(t.month);
    ReadPad2(t.day);
    ReadPad2(t.hour);
    ReadPad2(t.minute);
    ReadPad2(t.second);
    assert UnixSeconds(t.(micro := 0)) == UnixSeconds(t);
  }
}
