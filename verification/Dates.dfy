/** Calendar dates and the zero-padded strings that key the spend ledgers. */
module Dates {
  datatype Date = Date(year: nat, month: nat, day: nat)

  predicate Leap(y: nat) { y % 4 == 0 && (y % 100 != 0 || y % 400 == 0) }

  function DaysIn(y: nat, m: nat): (d: nat)
    ensures 28 <= d <= 31
  {
    if m == 2 then (if Leap(y) then 29 else 28)
    else if m == 4 || m == 6 || m == 9 || m == 11 then 30
    else 31
  }

  /** The years for which %Y prints four digits. */
  predicate Valid(d: Date) {
    d.year <= 9999 && 1 <= d.month <= 12 && 1 <= d.day <= DaysIn(d.year, d.month)
  }

  /** Months and days numbered in calendar order. */
  function MonthNo(d: Date): int { d.year * 12 + d.month - 1 }
  function DayNo(d: Date): int { MonthNo(d) * 31 + d.day - 1 }

  function DayBefore(d: Date): (r: Date)
    requires Valid(d) && (d.year >= 1 || d.month > 1 || d.day > 1)
    ensures Valid(r) && DayNo(r) < DayNo(d) && MonthNo(d) - 1 <= MonthNo(r) <= MonthNo(d)
  {
    if d.day > 1 then d.(day := d.day - 1)
    else if d.month > 1 then Date(d.year, d.month - 1, DaysIn(d.year, d.month - 1))
    else Date(d.year - 1, 12, 31)
  }

  /** The lengths of the months of a year. */
  lemma MonthLengths(y: nat)
    ensures var feb := if y % 400 == 0 then 29 else if y % 100 == 0 then 28 else if y % 4 == 0 then 29 else 28;
      [DaysIn(y, 1), DaysIn(y, 2), DaysIn(y, 3), DaysIn(y, 4), DaysIn(y, 5), DaysIn(y, 6),
       DaysIn(y, 7), DaysIn(y, 8), DaysIn(y, 9), DaysIn(y, 10), DaysIn(y, 11), DaysIn(y, 12)]
      == [31, feb, 31, 30, 31, 30, 31, 31, 30, 31, 30, 31]
  {}

  /** No date lies between a date and the day before it. */
  lemma DayBeforeIsAdjacent(d: Date, e: Date)
    requires Valid(d) && Valid(e) && (d.year >= 1 || d.month > 1 || d.day > 1)
    ensures DayNo(e) <= DayNo(DayBefore(d)) || DayNo(d) <= DayNo(e)
  {
    if DayNo(e) < DayNo(d) {
      assert MonthNo(e) <= MonthNo(d);
      if MonthNo(e) == MonthNo(DayBefore(d)) {
        assert e.year == DayBefore(d).year && e.month == DayBefore(d).month;
      }
    }
  }

  function MinusDays(d: Date, n: nat): (r: Date)
    requires Valid(d) && DayNo(d) >= 31 * n + 31
    ensures Valid(r) && DayNo(r) <= DayNo(d) && MonthNo(r) <= MonthNo(d)
    decreases n
  {
    if n == 0 then d else MinusDays(DayBefore(d), n - 1)
  }

  lemma {:induction false} MinusWithinMonth(d: Date, n: nat)
    requires Valid(d) && DayNo(d) >= 31 * n + 31 && n < d.day
    ensures MinusDays(d, n) == d.(day := d.day - n)
    decreases n
  {
    if n > 0 {
      MinusWithinMonth(d.(day := d.day - 1), n - 1);
    }
  }

  function LastOfPreviousMonth(d: Date): (r: Date)
    requires Valid(d) && (d.year >= 1 || d.month > 1)
    ensures Valid(r) && MonthNo(r) == MonthNo(d) - 1
  {
    if d.month > 1 then Date(d.year, d.month - 1, DaysIn(d.year, d.month - 1)) else Date(d.year - 1, 12, 31)
  }

  lemma {:induction false} MinusAcross(d: Date, n: nat)
    requires Valid(d) && DayNo(d) >= 31 * n + 31 && n >= d.day && DayNo(LastOfPreviousMonth(d)) >= 31 * (n - d.day) + 31
    ensures MinusDays(d, n) == MinusDays(LastOfPreviousMonth(d), n - d.day)
    decreases n
  {
    if d.day > 1 {
      var d' := d.(day := d.day - 1);
      assert DayBefore(d) == d' && LastOfPreviousMonth(d') == LastOfPreviousMonth(d);
      hide DaysIn, DayBefore, LastOfPreviousMonth;
      MinusAcross(d', n - 1);
    }
  }

  /** How many months back the day 30 days ago is: none on a 31st, two on the days of March
      with a February of at most 30 days less the day behind them, and else one. */
  function MonthsBack(d: Date): nat {
    if d.day == 31 then 0 else if d.month == 3 && d.day + DaysIn(d.year, 2) <= 30 then 2 else 1
  }

  lemma ThirtyDaysAgo(d: Date, n: nat)
    requires Valid(d) && d.year >= 1970 && n == 30 && DayNo(d) >= 31 * n + 31
    ensures MonthNo(MinusDays(d, n)) == MonthNo(d) - MonthsBack(d)
  {
    hide MinusDays;
    if d.day == 31 {
      MinusWithinMonth(d, n);
    } else {
      var last, k := LastOfPreviousMonth(d), n - d.day;
      MinusAcross(d, n);
      if k < last.day {
        MinusWithinMonth(last, k);
      } else {
        MinusAcross(last, k);
        MinusWithinMonth(LastOfPreviousMonth(last), k - last.day);
      }
    }
  }

  // ---- Keys ---------------------------------------------------------------------------------

  function Digit(n: nat): char
    requires n < 10
  {
    '0' + n as char
  }

  function Two(n: nat): (s: string)
    requires n < 100
    ensures |s| == 2
  {
    [Digit(n / 10), Digit(n % 10)]
  }

  function Four(n: nat): (s: string)
    requires n < 10000
    ensures |s| == 4
  {
    Two(n / 100) + Two(n % 100)
  }

  function MonthKey(d: Date): (s: string)
    requires Valid(d)
    ensures |s| == 7
  {
    Four(d.year) + "-" + Two(d.month)
  }

  function DayKey(d: Date): (s: string)
    requires Valid(d)
    ensures |s| == 10
  {
    MonthKey(d) + "-" + Two(d.day)
  }

  function DigitValue(c: char): int { c as int - '0' as int }

  /** A key reads as year, month and day. */
  lemma DayKeyReads(d: Date)
    requires Valid(d)
    ensures var k := DayKey(d);
      && 1000 * DigitValue(k[0]) + 100 * DigitValue(k[1]) + 10 * DigitValue(k[2]) + DigitValue(k[3]) == d.year
      && 10 * DigitValue(k[5]) + DigitValue(k[6]) == d.month && 10 * DigitValue(k[8]) + DigitValue(k[9]) == d.day
      && k[4] == k[7] == '-' && (forall i :: 0 <= i < 10 && i != 4 && i != 7 ==> '0' <= k[i] <= '9')
      && k[..7] == MonthKey(d)
  {
    hide DaysIn;
    TwoReads(d.year / 100);
    TwoReads(d.year % 100);
    TwoReads(d.month);
    TwoReads(d.day);
    hide Two, Digit;
  }

  lemma TwoReads(n: nat)
    requires n < 100
    ensures 10 * DigitValue(Two(n)[0]) + DigitValue(Two(n)[1]) == n && forall i :: 0 <= i < 2 ==> '0' <= Two(n)[i] <= '9'
    ensures 0 <= DigitValue(Two(n)[0]) == n / 10 <= 9 && 0 <= DigitValue(Two(n)[1]) == n % 10 <= 9
  {}

  /** String order, character by character. */
  predicate Leq(a: string, b: string) {
    a == [] || (b != [] && (a[0] < b[0] || (a[0] == b[0] && Leq(a[1..], b[1..]))))
  }

  predicate Less(a: string, b: string) { Leq(a, b) && a != b }

  /** Fields of the same width compare one after the other. */
  lemma {:induction false} Fields(a: string, a': string, b: string, b': string)
    requires |a| == |b|
    ensures Leq(a + a', b + b') <==> Less(a, b) || (a == b && Leq(a', b'))
    ensures a + a' == b + b' <==> a == b && a' == b'
  {
    if a == [] {
      assert a + a' == a' && b + b' == b';
    } else {
      Fields(a[1..], a', b[1..], b');
      assert (a + a')[1..] == a[1..] + a' && (b + b')[1..] == b[1..] + b';
      assert a == [a[0]] + a[1..] && b == [b[0]] + b[1..];
      assert (a + a')[0] == a[0] && (b + b')[0] == b[0];
      assert a + a' == b + b' ==> a == (a + a')[..|a|] == (b + b')[..|a|] == b;
    }
  }

  lemma DigitOrder(n: nat, m: nat)
    requires n < 10 && m < 10
    ensures Leq([Digit(n)], [Digit(m)]) <==> n <= m
    ensures [Digit(n)] == [Digit(m)] <==> n == m
  {
    assert [Digit(n)][1..] == [];
    assert Digit(n) < Digit(m) <==> n < m;
    assert Digit(m) == Digit(n) <==> m == n;
  }

  lemma TwoOrder(n: nat, m: nat)
    requires n < 100 && m < 100
    ensures Leq(Two(n), Two(m)) <==> n <= m
    ensures Two(n) == Two(m) <==> n == m
  {
    hide Leq, Digit;
    DigitOrder(n / 10, m / 10);
    DigitOrder(n % 10, m % 10);
    assert Two(n) == [Digit(n / 10)] + [Digit(n % 10)] && Two(m) == [Digit(m / 10)] + [Digit(m % 10)];
    Fields([Digit(n / 10)], [Digit(n % 10)], [Digit(m / 10)], [Digit(m % 10)]);
  }

  lemma FourOrder(n: nat, m: nat)
    requires n < 10000 && m < 10000
    ensures Leq(Four(n), Four(m)) <==> n <= m
    ensures Four(n) == Four(m) <==> n == m
  {
    hide Leq, Two;
    TwoOrder(n / 100, m / 100);
    TwoOrder(n % 100, m % 100);
    Fields(Two(n / 100), Two(n % 100), Two(m / 100), Two(m % 100));
  }

  /** Month keys are ordered as the months are. */
  lemma MonthKeyOrder(a: Date, b: Date)
    requires Valid(a) && Valid(b)
    ensures Leq(MonthKey(a), MonthKey(b)) <==> MonthNo(a) <= MonthNo(b)
    ensures MonthKey(a) == MonthKey(b) <==> MonthNo(a) == MonthNo(b)
  {
    hide Leq, Two, Four;
    FourOrder(a.year, b.year);
    TwoOrder(a.month, b.month);
    SameDash();
    Fields("-", Two(a.month), "-", Two(b.month));
    assert MonthKey(a) == Four(a.year) + ("-" + Two(a.month)) && MonthKey(b) == Four(b.year) + ("-" + Two(b.month));
    Fields(Four(a.year), "-" + Two(a.month), Four(b.year), "-" + Two(b.month));
  }

  lemma SameDash()
    ensures Leq("-", "-")
  {}

  /** Day keys are ordered as the days are. */
  lemma DayKeyOrder(a: Date, b: Date)
    requires Valid(a) && Valid(b)
    ensures Leq(DayKey(a), DayKey(b)) <==> DayNo(a) <= DayNo(b)
    ensures DayKey(a) == DayKey(b) <==> DayNo(a) == DayNo(b)
    ensures DayNo(a) == DayNo(b) <==> a == b
  {
    hide Leq, Two, MonthKey;
    MonthKeyOrder(a, b);
    TwoOrder(a.day, b.day);
    SameDash();
    Fields("-", Two(a.day), "-", Two(b.day));
    assert DayKey(a) == MonthKey(a) + ("-" + Two(a.day)) && DayKey(b) == MonthKey(b) + ("-" + Two(b.day));
    Fields(MonthKey(a), "-" + Two(a.day), MonthKey(b), "-" + Two(b.day));
  }
}
