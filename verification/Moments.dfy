/** The moments streaming latency statistics keep, over exact reals: Welford's update,
    the parallel merge, and their independence of order. */
module Moments {
  import opened Sorting

  const U64_MAX: nat := 0xFFFF_FFFF_FFFF_FFFF

  // ---- What the statistics mean -----------------------------------------------------

  function Sum(xs: seq<nat>): nat {
    if xs == [] then 0 else Sum(xs[..|xs| - 1]) + xs[|xs| - 1]
  }

  function Min(xs: seq<nat>): nat {
    if xs == [] then U64_MAX else
    var m := Min(xs[..|xs| - 1]);
    if m < xs[|xs| - 1] then m else xs[|xs| - 1]
  }

  function Max(xs: seq<nat>): nat {
    if xs == [] then 0 else
    var m := Max(xs[..|xs| - 1]);
    if m > xs[|xs| - 1] then m else xs[|xs| - 1]
  }

  function Mean(xs: seq<nat>): real {
    if xs == [] then 0.0 else Sum(xs) as real / |xs| as real
  }

  /** The sum of squared deviations of xs from c. */
  function SquaredDeviations(xs: seq<nat>, c: real): real {
    if xs == [] then 0.0
    else SquaredDeviations(xs[..|xs| - 1], c) + Square(xs[|xs| - 1] as real - c)
  }

  function Square(x: real): real { x * x }

  /** What moving the centre of n values of sum s from m to c adds to their squared deviations. */
  function Shift(n: real, s: real, m: real, c: real): real {
    n * Square(c - m) - 2.0 * (c - m) * (s - n * m)
  }

  lemma {:induction false} DeviationsShift(xs: seq<nat>, m: real, c: real)
    ensures SquaredDeviations(xs, c) == SquaredDeviations(xs, m) + Shift(|xs| as real, Sum(xs) as real, m, c)
  {
    hide Square;
    hide Shift;
    if xs == [] {
      ShiftNothing(m, c);
    } else {
      var x := xs[|xs| - 1] as real;
      DeviationsShift(xs[..|xs| - 1], m, c);
      ShiftOne((|xs| - 1) as real, Sum(xs[..|xs| - 1]) as real, x, m, c);
      assert |xs| as real == (|xs| - 1) as real + 1.0;
    }
  }

  lemma ShiftNothing(m: real, c: real)
    ensures Shift(0.0, 0.0, m, c) == 0.0
  {}

  lemma ShiftOne(n: real, s: real, x: real, m: real, c: real)
    ensures Shift(n + 1.0, s + x, m, c) + Square(x - m) == Shift(n, s, m, c) + Square(x - c)
  {
    var k := c - m;
    assert Square(x - c) == Square(x - m) + Square(k) - 2.0 * k * (x - m);
    assert (s + x) - (n + 1.0) * m == (s - n * m) + (x - m);
    assert 2.0 * k * ((s - n * m) + (x - m)) == 2.0 * k * (s - n * m) + 2.0 * k * (x - m);
  }

  lemma MeanTimesCount(xs: seq<nat>)
    ensures |xs| as real * Mean(xs) == Sum(xs) as real
  {}

  lemma {:induction false} SumConcat(xs: seq<nat>, ys: seq<nat>)
    ensures Sum(xs + ys) == Sum(xs) + Sum(ys)
    ensures Min(xs + ys) == if Min(xs) < Min(ys) then Min(xs) else Min(ys)
    ensures Max(xs + ys) == if Max(xs) > Max(ys) then Max(xs) else Max(ys)
    ensures forall c :: SquaredDeviations(xs + ys, c) == SquaredDeviations(xs, c) + SquaredDeviations(ys, c)
    ensures ys == [] ==> xs + ys == xs
    decreases |ys|
  {
    if ys == [] {
      assert xs + ys == xs;
      BelowLimit(xs);
    } else {
      assert (xs + ys)[..|xs + ys| - 1] == xs + ys[..|ys| - 1];
      SumConcat(xs, ys[..|ys| - 1]);
    }
  }

  lemma BelowLimit(xs: seq<nat>)
    ensures Min(xs) <= U64_MAX
  {}

  // ---- The two update formulas ------------------------------------------------------

  /** m' is the mean of n values of mean m and one value x. */
  predicate MeanMoves(n: real, m: real, x: real, m': real) { (n + 1.0) * m' == n * m + x }

  /** The squared deviations of n values add up to this much more around c than around their mean m. */
  function Spread(n: real, m: real, c: real): real { n * Square(c - m) }

  /** Welford: with m the mean of n values and m' the mean after adding x. */
  lemma WelfordIdentity(n: real, m: real, x: real, m': real)
    requires n >= 0.0 && MeanMoves(n, m, x, m')
    ensures n * Square(m' - m) + Square(x - m') == (x - m) * (x - m')
  {
    assert n * (m' - m) == x - m';
    assert n * Square(m' - m) == (x - m') * (m' - m);
  }

  lemma WelfordMean(n: real, m: real, x: real)
    requires n >= 0.0
    ensures (n + 1.0) * (m + (x - m) / (n + 1.0)) == n * m + x
  {}

  lemma DeviationsFromMean(xs: seq<nat>, c: real)
    ensures SquaredDeviations(xs, c) == SquaredDeviations(xs, Mean(xs)) + Spread(|xs| as real, Mean(xs), c)
  {
    hide SquaredDeviations;
    DeviationsShift(xs, Mean(xs), c);
    MeanTimesCount(xs);
    ShiftFromMean(|xs| as real, Mean(xs), Sum(xs) as real, c);
  }

  lemma ShiftFromMean(n: real, m: real, s: real, c: real)
    requires n * m == s
    ensures Shift(n, s, m, c) == Spread(n, m, c)
  {}

  lemma Append(xs: seq<nat>, x: nat, c: real)
    ensures Mean(xs + [x]) == (Sum(xs) as real + x as real) / (|xs| as real + 1.0)
    ensures SquaredDeviations(xs + [x], c) == SquaredDeviations(xs, c) + Square(x as real - c)
  {
    assert (xs + [x])[..|xs|] == xs;
  }

  lemma MeanStep(n: real, m: real, v: real, s: real)
    requires n >= 0.0 && n * m == s
    ensures NewMean(m, v, n + 1.0) == (s + v) / (n + 1.0)
  {
    WelfordMean(n, m, v);
    SameQuotient(n + 1.0, m + (v - m) / (n + 1.0), s + v);
  }

  lemma DeviationStep(d: real, n: real, m: real, v: real, m': real, d': real)
    requires n >= 0.0 && MeanMoves(n, m, v, m')
    requires d' == d + Spread(n, m, m') + Square(v - m')
    ensures d' == NewM2(d, v, m, m')
  {
    WelfordIdentity(n, m, v, m');
  }

  /** Welford's update: the mean of n values once x is the n-th ... */
  function NewMean(m: real, x: real, n: real): real
    requires n > 0.0
  {
    m + (x - m) / n
  }

  /** ... and the sum of squared deviations, from the deviations before and after. */
  function NewM2(m2: real, x: real, m: real, m': real): real {
    m2 + (x - m) * (x - m')
  }

  /** Welford's update of mean and m2 keeps both exact. */
  lemma RecordIsExact(xs: seq<nat>, x: nat)
    ensures NewMean(Mean(xs), x as real, (|xs| + 1) as real) == Mean(xs + [x])
    ensures NewM2(SquaredDeviations(xs, Mean(xs)), x as real, Mean(xs), Mean(xs + [x]))
         == SquaredDeviations(xs + [x], Mean(xs + [x]))
  {
    hide SquaredDeviations, Mean, NewMean, NewM2;
    RecordMean(xs, x);
    RecordDeviations(xs, x);
  }

  lemma RecordMean(xs: seq<nat>, x: nat)
    ensures NewMean(Mean(xs), x as real, (|xs| + 1) as real) == Mean(xs + [x])
  {
    hide Mean, Sum, NewMean, SquaredDeviations;
    MeanTimesCount(xs);
    Append(xs, x, 0.0);
    MeanStep(|xs| as real, Mean(xs), x as real, Sum(xs) as real);
    assert (|xs| + 1) as real == |xs| as real + 1.0;
  }

  lemma RecordDeviations(xs: seq<nat>, x: nat)
    ensures NewM2(SquaredDeviations(xs, Mean(xs)), x as real, Mean(xs), Mean(xs + [x]))
         == SquaredDeviations(xs + [x], Mean(xs + [x]))
  {
    hide Square, SquaredDeviations, Mean, Sum, NewMean, NewM2, Spread, MeanMoves;
    var m, m', n, v := Mean(xs), Mean(xs + [x]), |xs| as real, x as real;
    Append(xs, x, m');
    DeviationsFromMean(xs, m');
    CountStep(xs, x);
    DeviationStep(SquaredDeviations(xs, m), n, m, v, m', SquaredDeviations(xs + [x], m'));
  }

  lemma AppendExtremes(xs: seq<nat>, x: nat)
    ensures Sum(xs + [x]) == Sum(xs) + x
    ensures Min(xs + [x]) == if Min(xs) < x then Min(xs) else x
    ensures Max(xs + [x]) == if Max(xs) > x then Max(xs) else x
  {
    assert (xs + [x])[..|xs|] == xs;
  }

  lemma CountStep(xs: seq<nat>, x: nat)
    ensures MeanMoves(|xs| as real, Mean(xs), x as real, Mean(xs + [x]))
  {
    hide Mean, Sum;
    MeanTimesCount(xs);
    MeanTimesCount(xs + [x]);
    AppendExtremes(xs, x);
    assert |xs + [x]| as real == |xs| as real + 1.0;
  }

  lemma SameQuotient(n: real, q: real, s: real)
    requires n > 0.0 && n * q == s
    ensures q == s / n
  {}

  /** The correction of the parallel algorithm for combining two m2. */
  function Between(a: real, ma: real, b: real, mb: real): real
    requires a + b > 0.0
  {
    (mb - ma) * (mb - ma) * a * b / (a + b)
  }

  function Weighted(a: real, ma: real, b: real, mb: real): real
    requires a + b > 0.0
  {
    (a * ma + b * mb) / (a + b)
  }

  lemma MergeIdentity(a: real, ma: real, b: real, mb: real, m: real)
    requires a > 0.0 && b > 0.0 && m == Weighted(a, ma, b, mb)
    ensures Spread(a, ma, m) + Spread(b, mb, m) == Between(a, ma, b, mb)
  {
    var d, t := mb - ma, a + b;
    var u := d / t;
    assert t * m == a * ma + b * mb;
    assert t * (m - ma) == b * d;
    assert t * (m - mb) == -(a * d);
    Quotient(t, m - ma, b * d, b * u, u, d);
    Quotient(t, m - mb, -(a * d), -(a * u), u, d);
    MergeAlgebra(a, b, u, d);
  }

  lemma Quotient(t: real, x: real, y: real, z: real, u: real, d: real)
    requires t > 0.0 && t * x == y && u == d / t && t * z == y
    ensures x == z
  {
    assert t * (x - z) == 0.0;
  }

  lemma MergeAlgebra(a: real, b: real, u: real, d: real)
    requires a > 0.0 && b > 0.0 && d == u * (a + b)
    ensures a * Square(b * u) + b * Square(-(a * u)) == d * d * a * b / (a + b)
  {
    var t := a + b;
    assert a * Square(b * u) + b * Square(-(a * u)) == (a * b) * (u * u) * t;
    assert d * d * a * b == ((a * b) * (u * u) * t) * t;
  }

  /** The mean and m2 of the parallel merge are those of the concatenation. */
  lemma MergeMean(xs: seq<nat>, ys: seq<nat>)
    requires xs != [] && ys != []
    ensures Weighted(|xs| as real, Mean(xs), |ys| as real, Mean(ys)) == Mean(xs + ys)
  {
    hide Mean, Sum, Weighted;
    MeanTimesCount(xs);
    MeanTimesCount(ys);
    MeanTimesCount(xs + ys);
    SumConcat(xs, ys);
    WeightedMean(|xs| as real, Mean(xs), Sum(xs) as real, |ys| as real, Mean(ys), Sum(ys) as real, Mean(xs + ys));
  }

  lemma WeightedMean(a: real, ma: real, sa: real, b: real, mb: real, sb: real, m: real)
    requires a > 0.0 && b > 0.0 && a * ma == sa && b * mb == sb && (a + b) * m == sa + sb
    ensures Weighted(a, ma, b, mb) == m
  {
    SameQuotient(a + b, m, sa + sb);
  }

  lemma MergeDeviations(xs: seq<nat>, ys: seq<nat>)
    requires xs != [] && ys != []
    ensures SquaredDeviations(xs + ys, Mean(xs + ys))
         == SquaredDeviations(xs, Mean(xs))
            + (SquaredDeviations(ys, Mean(ys)) + Between(|xs| as real, Mean(xs), |ys| as real, Mean(ys)))
  {
    hide Square, Mean, SquaredDeviations, Between, Weighted, Spread;
    var m, a, b, ma, mb := Mean(xs + ys), |xs| as real, |ys| as real, Mean(xs), Mean(ys);
    SumConcat(xs, ys);
    DeviationsFromMean(xs, m);
    DeviationsFromMean(ys, m);
    MergeMean(xs, ys);
    MergeIdentity(a, ma, b, mb, m);
  }

  // ---- Order does not matter ----------------------------------------------------------

  lemma {:induction false} RemoveOne(xs: seq<nat>, i: nat, c: real)
    requires i < |xs|
    ensures var ys := xs[..i] + xs[i + 1..];
      && Sum(xs) == Sum(ys) + xs[i]
      && Min(xs) == (if Min(ys) < xs[i] then Min(ys) else xs[i])
      && Max(xs) == (if Max(ys) > xs[i] then Max(ys) else xs[i])
      && SquaredDeviations(xs, c) == SquaredDeviations(ys, c) + Square(xs[i] as real - c)
  {
    hide Square;
    var a, b := xs[..i], xs[i + 1..];
    assert xs == (a + [xs[i]]) + b;
    Append(a, xs[i], c);
    AppendExtremes(a, xs[i]);
    SumConcat(a + [xs[i]], b);
    SumConcat(a, b);
  }

  /** Samples in any order have the same moments. */
  lemma {:induction false} OrderIrrelevant(xs: seq<nat>, ys: seq<nat>, c: real)
    requires multiset(xs) == multiset(ys)
    ensures |xs| == |ys| && Sum(xs) == Sum(ys) && Min(xs) == Min(ys) && Max(xs) == Max(ys) && Mean(xs) == Mean(ys)
    ensures SquaredDeviations(xs, c) == SquaredDeviations(ys, c)
    decreases |xs|
  {
    hide Sum, Min, Max, SquaredDeviations, Square;
    assert |xs| == |multiset(xs)| == |multiset(ys)| == |ys|;
    if xs != [] {
      var n := |xs| - 1;
      assert xs[n] in multiset(ys);
      var i :| 0 <= i < |ys| && ys[i] == xs[n];
      var zs := ys[..i] + ys[i + 1..];
      RemoveAtMultiset(ys, i);
      RemoveAtMultiset(xs, n);
      assert RemoveAt(xs, n) == xs[..n];
      SameRest(multiset(xs[..n]), multiset(zs), xs[n]);
      OrderIrrelevant(xs[..n], zs, c);
      RemoveOne(ys, i, c);
      Append(xs[..n], xs[n], c);
      AppendExtremes(xs[..n], xs[n]);
      assert xs == xs[..n] + [xs[n]];
    }
  }

  function Flatten(logs: seq<seq<nat>>): seq<nat> {
    if logs == [] then [] else Flatten(logs[..|logs| - 1]) + logs[|logs| - 1]
  }

  lemma {:induction false} FlattenConcat(a: seq<seq<nat>>, b: seq<seq<nat>>)
    ensures Flatten(a + b) == Flatten(a) + Flatten(b)
    decreases |b|
  {
    if b == [] {
      assert a + b == a;
    } else {
      assert (a + b)[..|a + b| - 1] == a + b[..|b| - 1];
      FlattenConcat(a, b[..|b| - 1]);
    }
  }

  lemma FlattenParts(a: seq<seq<nat>>, x: seq<nat>, b: seq<seq<nat>>)
    ensures Flatten(a + [x] + b) == Flatten(a) + x + Flatten(b)
    ensures Flatten(a + b) == Flatten(a) + Flatten(b)
  {
    hide Flatten;
    FlattenConcat(a, b);
    FlattenConcat(a + [x], b);
    FlattenAppend(a, x);
  }

  lemma FlattenRemove(logs: seq<seq<nat>>, i: nat)
    requires i < |logs|
    ensures multiset(Flatten(logs)) == multiset(Flatten(RemoveAt(logs, i))) + multiset(logs[i])
  {
    hide Flatten;
    var a, x, b := logs[..i], logs[i], logs[i + 1..];
    assert logs == a + [x] + b;
    FlattenParts(a, x, b);
    Middle(Flatten(a), x, Flatten(b));
  }

  lemma Middle<T>(a: seq<T>, x: seq<T>, b: seq<T>)
    ensures multiset(a + x + b) == multiset(a + b) + multiset(x)
  {}

  lemma FlattenAppend(logs: seq<seq<nat>>, x: seq<nat>)
    ensures Flatten(logs + [x]) == Flatten(logs) + x
  {
    assert (logs + [x])[..|logs|] == logs;
  }

  lemma {:induction false} FlattenOrder(a: seq<seq<nat>>, b: seq<seq<nat>>)
    requires multiset(a) == multiset(b)
    ensures multiset(Flatten(a)) == multiset(Flatten(b))
    decreases |a|
  {
    assert |a| == |multiset(a)| == |multiset(b)| == |b|;
    if a != [] {
      var n := |a| - 1;
      assert a[n] in multiset(b);
      var i :| 0 <= i < |b| && b[i] == a[n];
      var rest := RemoveAt(b, i);
      RemoveAtMultiset(b, i);
      RemoveAtMultiset(a, n);
      assert RemoveAt(a, n) == a[..n];
      SameRest(multiset(a[..n]), multiset(rest), a[n]);
      FlattenOrder(a[..n], rest);
      FlattenRemove(b, i);
    }
  }

  /** Merging the strategies in any order gives the same aggregate moments. */
  lemma AggregateOrder(a: seq<seq<nat>>, b: seq<seq<nat>>)
    requires multiset(a) == multiset(b)
    ensures var xs, ys := Flatten(a), Flatten(b);
      && |xs| == |ys| && Sum(xs) == Sum(ys) && Min(xs) == Min(ys) && Max(xs) == Max(ys)
      && Mean(xs) == Mean(ys) && SquaredDeviations(xs, Mean(xs)) == SquaredDeviations(ys, Mean(ys))
  {
    FlattenOrder(a, b);
    OrderIrrelevant(Flatten(a), Flatten(b), Mean(Flatten(a)));
  }

  lemma {:induction false} Extremes(xs: seq<nat>)
    ensures forall x :: x in xs ==> Min(xs) <= x <= Max(xs)
    ensures xs != [] ==> Max(xs) in xs
    ensures xs != [] && (forall x :: x in xs ==> x <= 18_446_744_073_709_551_615) ==> Min(xs) in xs
  {
    if xs != [] {
      Extremes(xs[..|xs| - 1]);
      assert xs == xs[..|xs| - 1] + [xs[|xs| - 1]] && xs[|xs| - 1] in xs;
    }
  }

  function SumOfSquares(xs: seq<nat>): nat {
    if xs == [] then 0 else SumOfSquares(xs[..|xs| - 1]) + xs[|xs| - 1] * xs[|xs| - 1]
  }

  lemma {:induction false} DeviationsFromZero(xs: seq<nat>)
    ensures SquaredDeviations(xs, 0.0) == SumOfSquares(xs) as real
  {
    if xs != [] {
      var x := xs[|xs| - 1];
      DeviationsFromZero(xs[..|xs| - 1]);
      assert Square(x as real - 0.0) == (x * x) as real;
    }
  }

  /** The textbook formula: n times the deviations d is n times the sum of squares q less the
      square of the sum s. */
  predicate Textbook(n: real, d: real, q: real, s: real) { n * d == n * q - s * s }

  lemma DeviationsFromSquares(xs: seq<nat>)
    ensures Textbook(|xs| as real, SquaredDeviations(xs, Mean(xs)), SumOfSquares(xs) as real, Sum(xs) as real)
  {
    hide *;
    DeviationsFromZero(xs);
    DeviationsShift(xs, 0.0, Mean(xs));
    MeanTimesCount(xs);
    ShiftToMean(|xs| as real, SumOfSquares(xs) as real, Sum(xs) as real, Mean(xs));
  }

  lemma ShiftToMean(n: real, q: real, s: real, m: real)
    requires n * m == s
    ensures Textbook(n, q + Shift(n, s, 0.0, m), q, s)
  {
    assert Shift(n, s, 0.0, m) == (n * m) * m - 2.0 * m * s == -(m * s);
    assert n * (m * s) == (n * m) * s;
  }
}
