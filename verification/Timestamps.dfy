/** Contract timestamps: fixed-width texts whose order as strings is their order in time. */
module Timestamps {
  import opened Trust

  // ---- Fixed-width numbers ----

  function Power(w: nat): (p: nat)
    ensures p > 0
  {
    if w == 0 then 1 else 10 * Power(w - 1)
  }

  function DigitChar(d: int): char
    requires 0 <= d < 10
  {
    '0' + d as char
  }

  /** A number in exactly `w` decimal digits. */
  function Pad(n: nat, w: nat): (s: string)
    requires n < Power(w)
    ensures |s| == w
    decreases w
  {
    if w == 0 then ""
    else
      TopDigit(n, Power(w - 1));
      [DigitChar(n / Power(w - 1))] + Pad(n % Power(w - 1), w - 1)
  }

  lemma TopDigit(n: nat, p: nat)
    requires 0 < p && n < 10 * p
    ensures 0 <= n / p < 10 && 0 <= n % p < p
  {
    TopDigits(n, 10 * p, p);
    assert 10 * p / p == 10;
  }

  lemma TopDigits(n: nat, m: nat, p: nat)
    requires 0 < p
    ensures n < m <==> n / p < m / p || (n / p == m / p && n % p < m % p)
  {
    assert n == n / p * p + n % p && m == m / p * p + m % p;
    if n / p < m / p {
      assert (n / p + 1) * p <= m / p * p;
    } else if m / p < n / p {
      assert (m / p + 1) * p <= n / p * p;
    }
  }

  lemma SameNumber(n: nat, m: nat, p: nat)
    requires 0 < p
    ensures n == m <==> n / p == m / p && n % p == m % p
  {
    assert n == n / p * p + n % p && m == m / p * p + m % p;
  }

  lemma CharOrder(c: char, d: char, x: string, y: string)
    ensures StringLess([c] + x, [d] + y) <==> c < d || (c == d && StringLess(x, y))
  {
    assert ([c] + x)[1..] == x && ([d] + y)[1..] == y;
  }

  lemma DigitOrder(i: int, j: int)
    requires 0 <= i < 10 && 0 <= j < 10
    ensures (DigitChar(i) < DigitChar(j) <==> i < j) && (DigitChar(i) == DigitChar(j) <==> i == j)
  {
  }

  /** Strings that begin with numbers of one width are ordered by the numbers first. */
  lemma {:induction false} PadOrder(n: nat, m: nat, w: nat, x: string, y: string)
    requires n < Power(w) && m < Power(w)
    ensures StringLess(Pad(n, w) + x, Pad(m, w) + y) <==> n < m || (n == m && StringLess(x, y))
    decreases w, 0
  {
    if w == 0 {
      assert Pad(n, w) + x == x && Pad(m, w) + y == y;
    } else {
      hide StringLess, DigitChar;
      var p := Power(w - 1);
      TopDigit(n, p);
      TopDigit(m, p);
      var i, j, k, l := n / p, m / p, n % p, m % p;
      assert Pad(n, w) + x == [DigitChar(i)] + (Pad(k, w - 1) + x);
      assert Pad(m, w) + y == [DigitChar(j)] + (Pad(l, w - 1) + y);
      TopDigits(n, m, p);
      SameNumber(n, m, p);
      PadStep(n, m, i, j, k, l, w - 1, x, y);
    }
  }

  lemma {:induction false} PadStep(n: nat, m: nat, i: nat, j: nat, k: nat, l: nat, w: nat, x: string, y: string)
    requires i < 10 && j < 10 && k < Power(w) && l < Power(w)
    requires (n < m <==> i < j || (i == j && k < l)) && (n == m <==> i == j && k == l)
    ensures StringLess([DigitChar(i)] + (Pad(k, w) + x), [DigitChar(j)] + (Pad(l, w) + y))
            <==> n < m || (n == m && StringLess(x, y))
    decreases w, 1
  {
    hide StringLess, Pad, DigitChar;
    PadOrder(k, l, w, x, y);
    CharOrder(DigitChar(i), DigitChar(j), Pad(k, w) + x, Pad(l, w) + y);
    DigitOrder(i, j);
  }

  lemma SeparatorOrder(c: char, x: string, y: string)
    ensures StringLess([c] + x, [c] + y) <==> StringLess(x, y)
  {
    assert ([c] + x)[1..] == x && ([c] + y)[1..] == y;
  }

  // ---- Timestamps ----

  datatype Moment = Moment(year: nat, month: nat, day: nat, hour: nat, minute: nat, second: nat, milli: nat)

  predicate Leap(y: nat) { y % 4 == 0 && (y % 100 != 0 || y % 400 == 0) }

  function DaysIn(y: nat, m: nat): nat {
    if m == 2 then (if Leap(y) then 29 else 28) else if m == 4 || m == 6 || m == 9 || m == 11 then 30 else 31
  }

  predicate ValidMoment(t: Moment) {
    && 1 <= t.year <= 9999 && 1 <= t.month <= 12 && 1 <= t.day <= DaysIn(t.year, t.month)
    && t.hour < 24 && t.minute < 60 && t.second < 60 && t.milli < 1000
  }

  lemma Widths()
    ensures Power(2) == 100 && Power(3) == 1000 && Power(4) == 10000
  {
    assert Power(1) == 10;
  }

  /** `YYYY-MM-DDTHH:MM:SS.mmmZ`. */
  function Text(t: Moment): string
    requires ValidMoment(t)
  {
    Widths();
    Pad(t.year, 4) + (['-'] + (Pad(t.month, 2) + (['-'] + (Pad(t.day, 2) + (['T'] + ClockText(t))))))
  }

  function ClockText(t: Moment): string
    requires ValidMoment(t)
  {
    Widths();
    Pad(t.hour, 2) + ([':'] + (Pad(t.minute, 2) + ([':'] + (Pad(t.second, 2) + (['.'] + (Pad(t.milli, 3) + ['Z']))))))
  }

  predicate ClockBefore(a: Moment, b: Moment) {
    a.hour < b.hour || (a.hour == b.hour && (a.minute < b.minute || (a.minute == b.minute
      && (a.second < b.second || (a.second == b.second && a.milli < b.milli)))))
  }

  /** Order field by field, as datetimes of one zone compare. */
  predicate FieldsBefore(a: Moment, b: Moment) {
    a.year < b.year || (a.year == b.year && (a.month < b.month || (a.month == b.month
      && (a.day < b.day || (a.day == b.day && ClockBefore(a, b))))))
  }

  lemma ClockOrder(a: Moment, b: Moment)
    requires ValidMoment(a) && ValidMoment(b)
    ensures StringLess(ClockText(a), ClockText(b)) <==> ClockBefore(a, b)
  {
    hide Pad, StringLess;
    Widths();
    StringIrreflexive("Z");
    var a4, b4 := Pad(a.milli, 3) + ['Z'], Pad(b.milli, 3) + ['Z'];
    PadOrder(a.milli, b.milli, 3, ['Z'], ['Z']);
    SeparatorOrder('.', a4, b4);
    var a3, b3 := Pad(a.second, 2) + (['.'] + a4), Pad(b.second, 2) + (['.'] + b4);
    PadOrder(a.second, b.second, 2, ['.'] + a4, ['.'] + b4);
    SeparatorOrder(':', a3, b3);
    var a2, b2 := Pad(a.minute, 2) + ([':'] + a3), Pad(b.minute, 2) + ([':'] + b3);
    PadOrder(a.minute, b.minute, 2, [':'] + a3, [':'] + b3);
    SeparatorOrder(':', a2, b2);
    PadOrder(a.hour, b.hour, 2, [':'] + a2, [':'] + b2);
  }

  lemma FieldOrder(a: Moment, b: Moment)
    requires ValidMoment(a) && ValidMoment(b)
    ensures StringLess(Text(a), Text(b)) <==> FieldsBefore(a, b)
  {
    hide Pad, StringLess, ClockText, ClockBefore;
    Widths();
    ClockOrder(a, b);
    SeparatorOrder('T', ClockText(a), ClockText(b));
    var a2, b2 := Pad(a.day, 2) + (['T'] + ClockText(a)), Pad(b.day, 2) + (['T'] + ClockText(b));
    PadOrder(a.day, b.day, 2, ['T'] + ClockText(a), ['T'] + ClockText(b));
    SeparatorOrder('-', a2, b2);
    var a1, b1 := Pad(a.month, 2) + (['-'] + a2), Pad(b.month, 2) + (['-'] + b2);
    PadOrder(a.month, b.month, 2, ['-'] + a2, ['-'] + b2);
    SeparatorOrder('-', a1, b1);
    PadOrder(a.year, b.year, 4, ['-'] + a1, ['-'] + b1);
  }

  // ---- Time ----

  /** Days before a year and before a month, in the proleptic Gregorian calendar. */
  function DaysBeforeYear(y: nat): int
    requires 1 <= y
  {
    365 * (y - 1) + (y - 1) / 4 - (y - 1) / 100 + (y - 1) / 400
  }

  const CUMULATIVE: seq<nat> := [0, 31, 59, 90, 120, 151, 181, 212, 243, 273, 304, 334, 365]

  function DaysBeforeMonth(y: nat, m: nat): nat
    requires 1 <= m <= 13
  {
    CUMULATIVE[m - 1] + (if m > 2 && Leap(y) then 1 else 0)
  }

  function Day(t: Moment): int
    requires ValidMoment(t)
  {
    DaysBeforeYear(t.year) + DaysBeforeMonth(t.year, t.month) + t.day - 1
  }

  /** Milliseconds since 0001-01-01. */
  function Instant(t: Moment): int
    requires ValidMoment(t)
  {
    Day(t) * 86_400_000 + Clock(t)
  }

  function Clock(t: Moment): (c: int)
    requires ValidMoment(t)
    ensures 0 <= c < 86_400_000
  {
    t.hour * 3_600_000 + t.minute * 60_000 + t.second * 1000 + t.milli
  }

  lemma MonthLength(y: nat, m: nat)
    requires 1 <= m <= 12
    ensures DaysBeforeMonth(y, m) + DaysIn(y, m) == DaysBeforeMonth(y, m + 1)
  {
  }

  lemma {:induction false} MonthsGrow(y: nat, m: nat, n: nat)
    requires 1 <= m < n <= 13
    ensures DaysBeforeMonth(y, m) + DaysIn(y, m) <= DaysBeforeMonth(y, n)
    decreases n
  {
    hide DaysBeforeMonth, DaysIn;
    if m + 1 < n {
      MonthsGrow(y, m, n - 1);
      MonthLength(y, n - 1);
    } else {
      MonthLength(y, m);
    }
  }

  lemma YearLength(y: nat)
    requires 1 <= y
    ensures DaysBeforeYear(y + 1) == DaysBeforeYear(y) + DaysBeforeMonth(y, 13)
  {
    Multiples(y, 4);
    Multiples(y, 100);
    Multiples(y, 400);
    LeapDay(y);
  }

  lemma LeapDay(y: nat)
    ensures (if y % 4 == 0 then 1 else 0) - (if y % 100 == 0 then 1 else 0) + (if y % 400 == 0 then 1 else 0)
            == (if Leap(y) then 1 else 0)
  {
    assert y % 400 == 0 ==> y % 100 == 0;
    assert y % 100 == 0 ==> y % 4 == 0;
  }

  lemma Multiples(y: nat, d: nat)
    requires 1 <= y && (d == 4 || d == 100 || d == 400)
    ensures y / d == (y - 1) / d + (if y % d == 0 then 1 else 0)
  {
  }

  lemma {:induction false} YearsGrow(y: nat, z: nat)
    requires 1 <= y < z
    ensures DaysBeforeYear(y) + DaysBeforeMonth(y, 13) <= DaysBeforeYear(z)
    decreases z
  {
    if y + 1 < z {
      YearsGrow(y, z - 1);
      YearLength(z - 1);
    } else {
      YearLength(y);
    }
  }

  lemma EarlierDay(a: Moment, b: Moment)
    requires ValidMoment(a) && ValidMoment(b)
    requires a.year < b.year || (a.year == b.year && (a.month < b.month || (a.month == b.month && a.day < b.day)))
    ensures Day(a) < Day(b)
  {
    hide DaysBeforeMonth, DaysBeforeYear, DaysIn;
    if a.year < b.year {
      MonthsGrow(a.year, a.month, 13);
      YearsGrow(a.year, b.year);
    } else if a.month < b.month {
      MonthsGrow(a.year, a.month, b.month);
    }
  }

  lemma EarlierFields(a: Moment, b: Moment)
    requires ValidMoment(a) && ValidMoment(b) && FieldsBefore(a, b)
    ensures Instant(a) < Instant(b)
  {
    hide Day;
    if a.year == b.year && a.month == b.month && a.day == b.day {
      assert Day(a) == Day(b) by { SameDay(a, b); }
    } else {
      EarlierDay(a, b);
      assert (Day(a) + 1) * 86_400_000 <= Day(b) * 86_400_000;
    }
  }

  lemma SameDay(a: Moment, b: Moment)
    requires ValidMoment(a) && ValidMoment(b) && a.year == b.year && a.month == b.month && a.day == b.day
    ensures Day(a) == Day(b)
  {
  }

  /** The in-process ledger compares timestamps as strings; that is comparing them in time. */
  lemma StringOrderIsTimeOrder(a: Moment, b: Moment)
    requires ValidMoment(a) && ValidMoment(b)
    ensures StringLess(Text(a), Text(b)) <==> Instant(a) < Instant(b)
    ensures Text(a) == Text(b) <==> Instant(a) == Instant(b)
  {
    hide Text, Instant, StringLess;
    FieldOrder(a, b);
    FieldOrder(b, a);
    StringTotal(Text(a), Text(b));
    StringIrreflexive(Text(a));
    if FieldsBefore(a, b) {
      EarlierFields(a, b);
    } else if FieldsBefore(b, a) {
      EarlierFields(b, a);
    } else {
      assert a == b;
    }
  }
}
