/**
 Times are stored as ISO text and compared as text in SQL, and as moments in time
 everywhere else.  For UTC times the two orders are the same.
 */
module LeaseText {
  import opened Basics
  import opened Listing

  datatype Moment = Moment(year: nat, month: nat, day: nat, hour: nat, minute: nat, second: nat, micro: nat)

  predicate Leap(y: nat) {
    y % 4 == 0 && (y % 100 != 0 || y % 400 == 0)
  }

  function DaysInMonth(y: nat, m: nat): nat {
    if m == 2 then (if Leap(y) then 29 else 28)
    else if m in {4, 6, 9, 11} then 30
    else 31
  }

  /** The moments a UTC `datetime` can hold. */
  predicate Valid(t: Moment) {
    && 1 <= t.year <= 9999 && 1 <= t.month <= 12 && 1 <= t.day <= DaysInMonth(t.year, t.month)
    && t.hour < 24 && t.minute < 60 && t.second < 60 && t.micro < 1_000_000
  }

  // ----- Time -----

  function DaysBeforeYear(y: nat): int
    requires y >= 1
  {
    (y - 1) * 365 + (y - 1) / 4 - (y - 1) / 100 + (y - 1) / 400
  }

  function DaysBeforeMonth(y: nat, m: nat): nat
    requires m >= 1
  {
    if m == 1 then 0 else DaysBeforeMonth(y, m - 1) + DaysInMonth(y, m - 1)
  }

  /** Days since the first day of year 1, in the proleptic Gregorian calendar. */
  function Ordinal(t: Moment): int
    requires Valid(t)
  {
    DaysBeforeYear(t.year) + DaysBeforeMonth(t.year, t.month) + t.day
  }

  function SecondOfDay(t: Moment): nat {
    (t.hour * 60 + t.minute) * 60 + t.second
  }

  /** Microseconds since then. */
  function Micros(t: Moment): int
    requires Valid(t)
  {
    (Ordinal(t) * 86_400 + SecondOfDay(t)) * 1_000_000 + t.micro
  }

  // ----- Text -----

  function Digit(n: nat): char
    requires n < 10
  {
    ['0', '1', '2', '3', '4', '5', '6', '7', '8', '9'][n]
  }

  function Digits(n: nat, width: nat): (s: string)
    ensures |s| == width
  {
    if width == 0 then "" else Digits(n / 10, width - 1) + [Digit(n % 10)]
  }

  /** What follows the second: the microseconds are left out when there are none. */
  function Fraction(micro: nat): string {
    if micro == 0 then "+00:00" else "." + Digits(micro, 6) + "+00:00"
  }

  function TimeText(t: Moment): string {
    Digits(t.hour, 2) + (":" + (Digits(t.minute, 2) + (":" + (Digits(t.second, 2) + Fraction(t.micro)))))
  }

  /** `isoformat()` of a UTC time. */
  function Iso(t: Moment): string {
    Digits(t.year, 4) + ("-" + (Digits(t.month, 2) + ("-" + (Digits(t.day, 2) + ("T" + TimeText(t))))))
  }

  // ----- Text order, piece by piece -----

  lemma {:induction false} AfterPrefix(p: string, q: string, s: string, t: string)
    requires |p| == |q|
    ensures TextLess(p + s, q + t) <==> TextLess(p, q) || (p == q && TextLess(s, t))
  {
    if p == "" {
      assert p + s == s && q + t == t;
    } else {
      assert (p + s)[1..] == p[1..] + s && (q + t)[1..] == q[1..] + t;
      AfterPrefix(p[1..], q[1..], s, t);
      assert p == q <==> p[0] == q[0] && p[1..] == q[1..] by {
        assert p == [p[0]] + p[1..] && q == [q[0]] + q[1..];
      }
    }
  }

  lemma {:induction false} DigitsOrder(n: nat, m: nat, width: nat)
    requires n < Power(width) && m < Power(width)
    ensures TextLess(Digits(n, width), Digits(m, width)) <==> n < m
    ensures Digits(n, width) == Digits(m, width) <==> n == m
  {
    if width > 0 {
      DigitsOrder(n / 10, m / 10, width - 1);
      var p, q := Digits(n / 10, width - 1), Digits(m / 10, width - 1);
      var a, b := [Digit(n % 10)], [Digit(m % 10)];
      AfterPrefix(p, q, a, b);
      DigitOrder(n % 10, m % 10);
      assert Digits(n, width) == p + a && Digits(m, width) == q + b;
      assert p + a == q + b <==> p == q && a == b by {
        if p + a == q + b { assert (p + a)[..|p|] == p && (q + b)[..|q|] == q && (p + a)[|p|..] == a && (q + b)[|q|..] == b; }
      }
    }
  }

  lemma DigitOrder(n: nat, m: nat)
    requires n < 10 && m < 10
    ensures TextLess([Digit(n)], [Digit(m)]) <==> n < m
    ensures [Digit(n)] == [Digit(m)] <==> n == m
  {
    assert [Digit(n)][1..] == "" && [Digit(m)][1..] == "";
    assert [Digit(n)][0] == Digit(n) && [Digit(m)][0] == Digit(m);
  }

  function Power(width: nat): nat {
    if width == 0 then 1 else 10 * Power(width - 1)
  }

  /** A numeric field decides, or leaves the decision to what follows it. */
  lemma FieldOrder(n: nat, m: nat, width: nat, s: string, t: string)
    requires n < Power(width) && m < Power(width)
    ensures TextLess(Digits(n, width) + s, Digits(m, width) + t) <==> n < m || (n == m && TextLess(s, t))
  {
    DigitsOrder(n, m, width);
    AfterPrefix(Digits(n, width), Digits(m, width), s, t);
  }

  lemma Separator(c: string, s: string, t: string)
    ensures TextLess(c + s, c + t) <==> TextLess(s, t)
  {
    AfterPrefix(c, c, s, t);
    TextLessTotal(c, c);
  }

  /** Without microseconds the text goes on with `+`, with them it goes on with `.`, which sorts higher. */
  lemma FractionOrder(n: nat, m: nat)
    requires n < 1_000_000 && m < 1_000_000
    ensures TextLess(Fraction(n), Fraction(m)) <==> n < m
  {
    TextLessTotal("+00:00", "+00:00");
    if n == 0 && m == 0 {
    } else if n == 0 {
      assert Fraction(n)[0] == '+' && Fraction(m)[0] == '.';
    } else if m == 0 {
      assert Fraction(n)[0] == '.' && Fraction(m)[0] == '+';
    } else {
      assert Power(6) == 1_000_000 by { assert Power(3) == 1000; }
      assert Fraction(n) == "." + (Digits(n, 6) + "+00:00") && Fraction(m) == "." + (Digits(m, 6) + "+00:00");
      Separator(".", Digits(n, 6) + "+00:00", Digits(m, 6) + "+00:00");
      FieldOrder(n, m, 6, "+00:00", "+00:00");
    }
  }

  // ----- Both orders are the order of the fields -----

  predicate TimeLess(a: Moment, b: Moment) {
    || a.hour < b.hour
    || (a.hour == b.hour &&
         (a.minute < b.minute || (a.minute == b.minute &&
           (a.second < b.second || (a.second == b.second && a.micro < b.micro)))))
  }

  predicate FieldsLess(a: Moment, b: Moment) {
    || a.year < b.year
    || (a.year == b.year &&
         (a.month < b.month || (a.month == b.month &&
           (a.day < b.day || (a.day == b.day && TimeLess(a, b))))))
  }

  lemma TimeTextOrder(a: Moment, b: Moment)
    requires Valid(a) && Valid(b)
    ensures TextLess(TimeText(a), TimeText(b)) <==> TimeLess(a, b)
  {
    assert Power(2) == 100 by { assert Power(1) == 10; }
    hide TextLess, Digits, Power, DaysInMonth;
    var a2, b2 := Digits(a.second, 2) + Fraction(a.micro), Digits(b.second, 2) + Fraction(b.micro);
    FractionOrder(a.micro, b.micro);
    FieldOrder(a.second, b.second, 2, Fraction(a.micro), Fraction(b.micro));
    hide Fraction;
    Separator(":", a2, b2);
    var a1, b1 := Digits(a.minute, 2) + (":" + a2), Digits(b.minute, 2) + (":" + b2);
    FieldOrder(a.minute, b.minute, 2, ":" + a2, ":" + b2);
    Separator(":", a1, b1);
    FieldOrder(a.hour, b.hour, 2, ":" + a1, ":" + b1);
  }

  lemma IsoOrder(a: Moment, b: Moment)
    requires Valid(a) && Valid(b)
    ensures TextLess(Iso(a), Iso(b)) <==> FieldsLess(a, b)
  {
    assert Power(2) == 100 && Power(4) == 10_000 by { assert Power(1) == 10; assert Power(3) == 1000; }
    TimeTextOrder(a, b);
    hide TextLess, Digits, Power, Fraction, TimeLess;
    var a3, b3 := TimeText(a), TimeText(b);
    Separator("T", a3, b3);
    var a2, b2 := Digits(a.day, 2) + ("T" + a3), Digits(b.day, 2) + ("T" + b3);
    FieldOrder(a.day, b.day, 2, "T" + a3, "T" + b3);
    Separator("-", a2, b2);
    var a1, b1 := Digits(a.month, 2) + ("-" + a2), Digits(b.month, 2) + ("-" + b2);
    FieldOrder(a.month, b.month, 2, "-" + a2, "-" + b2);
    Separator("-", a1, b1);
    FieldOrder(a.year, b.year, 4, "-" + a1, "-" + b1);
  }

  lemma {:induction false} MonthsGrow(y: nat, m: nat, m': nat)
    requires 1 <= m < m' <= 13
    ensures DaysBeforeMonth(y, m) + DaysInMonth(y, m) <= DaysBeforeMonth(y, m')
    decreases m'
  {
    if m < m' - 1 { MonthsGrow(y, m, m' - 1); }
  }

  lemma YearLength(y: nat)
    requires y >= 1
    ensures DaysBeforeMonth(y, 13) == (if Leap(y) then 366 else 365)
    ensures DaysBeforeYear(y + 1) == DaysBeforeYear(y) + DaysBeforeMonth(y, 13)
  {
    var feb := DaysInMonth(y, 2);
    assert DaysBeforeMonth(y, 2) == 31 && DaysBeforeMonth(y, 3) == 31 + feb;
    assert DaysBeforeMonth(y, 5) == 92 + feb by { assert DaysBeforeMonth(y, 4) == 62 + feb; }
    assert DaysBeforeMonth(y, 7) == 153 + feb by { assert DaysBeforeMonth(y, 6) == 123 + feb; }
    assert DaysBeforeMonth(y, 9) == 215 + feb by { assert DaysBeforeMonth(y, 8) == 184 + feb; }
    assert DaysBeforeMonth(y, 11) == 276 + feb by { assert DaysBeforeMonth(y, 10) == 245 + feb; }
    assert DaysBeforeMonth(y, 13) == 337 + feb by { assert DaysBeforeMonth(y, 12) == 306 + feb; }
    Quotients(y);
  }

  lemma Quotients(y: nat)
    requires y >= 1
    ensures y / 4 == (y - 1) / 4 + (if y % 4 == 0 then 1 else 0)
    ensures y / 100 == (y - 1) / 100 + (if y % 100 == 0 then 1 else 0)
    ensures y / 400 == (y - 1) / 400 + (if y % 400 == 0 then 1 else 0)
    ensures y % 400 == 0 ==> y % 100 == 0
    ensures y % 100 == 0 ==> y % 4 == 0
  {}

  lemma {:induction false} YearsGrow(y: nat, y': nat)
    requires 1 <= y < y'
    ensures DaysBeforeYear(y + 1) <= DaysBeforeYear(y')
    decreases y'
  {
    if y + 1 < y' {
      YearsGrow(y, y' - 1);
      YearLength(y' - 1);
    }
  }

  lemma OrdinalOrder(a: Moment, b: Moment)
    requires Valid(a) && Valid(b)
    ensures
      a.year < b.year || (a.year == b.year && (a.month < b.month || (a.month == b.month && a.day < b.day))) ==>
        Ordinal(a) < Ordinal(b)
  {
    if a.year < b.year {
      MonthsGrow(a.year, a.month, 13);
      YearLength(a.year);
      YearsGrow(a.year, b.year);
      hide DaysInMonth, Leap, DaysBeforeYear;
    } else if a.year == b.year && a.month < b.month {
      MonthsGrow(a.year, a.month, b.month);
    }
  }

  lemma EarlierFields(a: Moment, b: Moment)
    requires Valid(a) && Valid(b) && FieldsLess(a, b)
    ensures Micros(a) < Micros(b)
  {
    OrdinalOrder(a, b);
    assert SecondOfDay(a) < 86_400 && SecondOfDay(b) < 86_400;
    assert a.year == b.year && a.month == b.month && a.day == b.day ==> Ordinal(a) == Ordinal(b);
    hide Ordinal, DaysInMonth;
  }

  // ----- Reading a time back -----

  predicate Numeric(s: string) {
    forall i :: 0 <= i < |s| ==> '0' <= s[i] <= '9'
  }

  function Read(s: string): nat
    requires Numeric(s)
  {
    if s == "" then 0 else Read(s[..|s| - 1]) * 10 + (s[|s| - 1] as int - '0' as int)
  }

  lemma ReadOne(front: string, c: char)
    requires Numeric(front) && '0' <= c <= '9'
    ensures Numeric(front + [c]) && Read(front + [c]) == Read(front) * 10 + (c as int - '0' as int)
  {
    assert (front + [c])[..|front|] == front;
  }

  lemma DigitIs(n: nat)
    requires n < 10
    ensures '0' <= Digit(n) <= '9' && Digit(n) as int == '0' as int + n
  {}

  lemma {:induction false} ReadDigits(n: nat, width: nat)
    requires n < Power(width)
    ensures Numeric(Digits(n, width)) && Read(Digits(n, width)) == n
  {
    if width > 0 {
      ReadDigits(n / 10, width - 1);
      hide Read, Numeric, Digit;
      DigitIs(n % 10);
      ReadOne(Digits(n / 10, width - 1), Digit(n % 10));
    }
  }

  /** A field of so many digits, and what follows it. */
  function ReadField(s: string, width: nat): (f: (nat, string))
    requires |s| >= width
    ensures |f.1| == |s| - width
  {
    (if Numeric(s[..width]) then Read(s[..width]) else 0, s[width..])
  }

  lemma FieldReadsBack(n: nat, width: nat, rest: string)
    requires n < Power(width)
    ensures ReadField(Digits(n, width) + rest, width) == (n, rest)
  {
    ReadDigits(n, width);
    hide Digits, Read, Numeric;
    var s := Digits(n, width) + rest;
    assert s[..width] == Digits(n, width) && s[width..] == rest;
  }

  /** `fromisoformat()` of a stored time: fields of fixed width, the microseconds after a point. */
  function ReadIso(s: string): Moment
    requires |s| == 25 || |s| == 32
  {
    var (year, a) := ReadField(s, 4);
    var (month, b) := ReadField(a[1..], 2);
    var (day, c) := ReadField(b[1..], 2);
    var (hour, d) := ReadField(c[1..], 2);
    var (minute, e) := ReadField(d[1..], 2);
    var (second, f) := ReadField(e[1..], 2);
    Moment(year, month, day, hour, minute, second, if |s| == 32 then ReadField(f[1..], 6).0 else 0)
  }

  lemma After(c: string, rest: string)
    requires |c| == 1
    ensures (c + rest)[1..] == rest
  {}

  /** A stored time reads back as itself. */
  lemma IsoReadsBack(t: Moment)
    requires Valid(t)
    ensures |Iso(t)| == (if t.micro == 0 then 25 else 32) && ReadIso(Iso(t)) == t
  {
    assert Power(2) == 100 && Power(4) == 10_000 && Power(6) == 1_000_000;
    var f := Fraction(t.micro);
    var e := ":" + (Digits(t.second, 2) + f);
    var d := ":" + (Digits(t.minute, 2) + e);
    var c := "T" + (Digits(t.hour, 2) + d);
    var b := "-" + (Digits(t.day, 2) + c);
    var a := "-" + (Digits(t.month, 2) + b);
    assert Iso(t) == Digits(t.year, 4) + a;
    assert t.day < 100;
    if t.micro > 0 {
      assert f == "." + (Digits(t.micro, 6) + "+00:00");
      After(".", Digits(t.micro, 6) + "+00:00");
      FieldReadsBack(t.micro, 6, "+00:00");
    }
    hide Digits, ReadField, Power, Iso, Fraction, DaysInMonth;
    FieldReadsBack(t.year, 4, a);
    FieldReadsBack(t.month, 2, b);
    FieldReadsBack(t.day, 2, c);
    FieldReadsBack(t.hour, 2, d);
    FieldReadsBack(t.minute, 2, e);
    FieldReadsBack(t.second, 2, f);
    After("-", Digits(t.month, 2) + b);
    After("-", Digits(t.day, 2) + c);
    After("T", Digits(t.hour, 2) + d);
    After(":", Digits(t.minute, 2) + e);
    After(":", Digits(t.second, 2) + f);
  }

  /** For all UTC times, with or without a microsecond part: one text sorts before the
      other exactly when its time comes first, and equal texts mean equal times. */
  lemma TextOrderIsTimeOrder(a: Moment, b: Moment)
    requires Valid(a) && Valid(b)
    ensures TextLess(Iso(a), Iso(b)) <==> Micros(a) < Micros(b)
    ensures Iso(a) == Iso(b) <==> Micros(a) == Micros(b)
  {
    hide Iso, Micros, TextLess, DaysInMonth;
    IsoOrder(a, b);
    IsoOrder(b, a);
    TextLessTotal(Iso(a), Iso(b));
    if FieldsLess(a, b) { EarlierFields(a, b); }
    if FieldsLess(b, a) { EarlierFields(b, a); }
    assert FieldsLess(a, b) || FieldsLess(b, a) || a == b;
  }

  /** So the SQL tests on lease text and the parsed test in `_assert_claim` split the
      same way: a lease that ends at `lease` is, at `now`, either still usable or
      already recoverable, and never both. */
  lemma LeaseTestsAgree(lease: Moment, now: Moment)
    requires Valid(lease) && Valid(now)
    ensures TextLess(Iso(lease), Iso(now)) <==> Micros(lease) < Micros(now)
    ensures !TextLess(Iso(lease), Iso(now)) <==> Micros(lease) >= Micros(now)
  {
    TextOrderIsTimeOrder(lease, now);
  }
}
