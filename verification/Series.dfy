/** Reverse-indexed time series: position 0 is the newest value. A series keeps at most its
    lookback, and within that window it cannot be told from the full history. */
module SeriesData {
  import opened Arithmetic
  import opened Options

  /** What a deque of this maximum length holds after pushing all of h; no limit when L <= 0. */
  function Retained<T>(h: seq<T>, L: int): (r: seq<T>)
    ensures |r| == Available(|h|, L)
  {
    if 0 < L < |h| then h[|h| - L..] else h
  }

  function Available(n: nat, L: int): nat { if 0 < L < n then L else n }

  function Ago<T>(h: seq<T>, i: int): Option<T> {
    if 0 <= i < |h| then Some(h[|h| - 1 - i]) else None
  }

  // ---- Windows over the newest p values ----------------------------------------------------------

  function SumAgo(h: seq<real>, p: nat): real
    requires p <= |h|
  {
    if p == 0 then 0.0 else SumAgo(h, p - 1) + h[|h| - p]
  }

  function MaxAgo(h: seq<real>, p: nat): real
    requires 1 <= p <= |h|
  {
    if p == 1 || MaxAgo(h, p - 1) < h[|h| - p] then h[|h| - p] else MaxAgo(h, p - 1)
  }

  function MinAgo(h: seq<real>, p: nat): real
    requires 1 <= p <= |h|
  {
    if p == 1 || h[|h| - p] < MinAgo(h, p - 1) then h[|h| - p] else MinAgo(h, p - 1)
  }

  function Sum(h: seq<real>, p: int): Option<real> {
    if |h| < p || p <= 0 then None else Some(SumAgo(h, p))
  }

  function Average(sum: real, p: int): real
    requires p > 0
  {
    sum / p as real
  }

  function Sma(h: seq<real>, p: int): Option<real> {
    if |h| < p || p <= 0 then None else Some(Average(SumAgo(h, p), p))
  }

  function Highest(h: seq<real>, p: int): Option<real> {
    if |h| < p || p <= 0 then None else Some(MaxAgo(h, p))
  }

  function Lowest(h: seq<real>, p: int): Option<real> {
    if |h| < p || p <= 0 then None else Some(MinAgo(h, p))
  }

  lemma RetainedAgo<T>(h: seq<T>, L: int, i: int)
    ensures Ago(Retained(h, L), i) == if i < Available(|h|, L) then Ago(h, i) else None
  {}

  /** Pushing onto what was retained, and evicting the oldest when over the limit. */
  lemma RetainedPush<T>(h: seq<T>, L: int, v: T)
    ensures var d := Retained(h, L) + [v];
      Retained(h + [v], L) == if 0 < L < |d| then d[1..] else d
  {
    var d := Retained(h, L) + [v];
    if 0 < L < |d| {
      assert d[1..] == (h + [v])[|h| + 1 - L..];
    } else {
      assert Retained(h + [v], L) == d;
    }
  }

  lemma {:induction false} WindowWithinLookback(h: seq<real>, L: int, p: nat)
    requires p <= Available(|h|, L)
    ensures SumAgo(Retained(h, L), p) == SumAgo(h, p)
    ensures p >= 1 ==> MaxAgo(Retained(h, L), p) == MaxAgo(h, p) && MinAgo(Retained(h, L), p) == MinAgo(h, p)
  {
    if p > 0 {
      WindowWithinLookback(h, L, p - 1);
    }
  }

  /** Every indicator on the retained values is the one on the full history, and there is one
      exactly when the period is positive and within the lookback. */
  lemma IndicatorsIgnoreEviction(h: seq<real>, L: int, p: int)
    ensures var d, within := Retained(h, L), p <= Available(|h|, L);
      && Sum(d, p) == (if within then Sum(h, p) else None)
      && Sma(d, p) == (if within then Sma(h, p) else None)
      && Highest(d, p) == (if within then Highest(h, p) else None)
      && Lowest(d, p) == (if within then Lowest(h, p) else None)
  {
    if 0 < p <= Available(|h|, L) {
      WindowWithinLookback(h, L, p);
    }
  }

  /** The highest is one of the newest p values and none of them exceeds it; dually the lowest. */
  lemma {:induction false} ExtremesAreAttained(h: seq<real>, p: nat) returns (hi: nat, lo: nat)
    requires 1 <= p <= |h|
    ensures hi < p && Ago(h, hi) == Some(MaxAgo(h, p))
    ensures lo < p && Ago(h, lo) == Some(MinAgo(h, p))
    ensures forall i :: 0 <= i < p ==> MinAgo(h, p) <= Ago(h, i).value <= MaxAgo(h, p)
  {
    hi, lo := p - 1, p - 1;
    if p > 1 {
      var hi', lo' := ExtremesAreAttained(h, p - 1);
      if !(MaxAgo(h, p - 1) < h[|h| - p]) { hi := hi'; }
      if !(h[|h| - p] < MinAgo(h, p - 1)) { lo := lo'; }
    }
  }

  lemma {:induction false} SumBetween(h: seq<real>, p: nat, a: real, b: real)
    requires p <= |h| && forall i :: 0 <= i < p ==> a <= Ago(h, i).value <= b
    ensures p as real * a <= SumAgo(h, p) <= p as real * b
  {
    if p > 0 {
      SumBetween(h, p - 1, a, b);
      assert Ago(h, p - 1) == Some(h[|h| - p]);
      assert p as real * a == (p - 1) as real * a + a && p as real * b == (p - 1) as real * b + b;
    }
  }

  lemma MeanBetween(s: real, p: nat, a: real, b: real)
    requires p >= 1 && p as real * a <= s <= p as real * b
    ensures a <= s / p as real <= b
  {
    var m := s / p as real;
    assert m * p as real == s;
    ScaleOrder(a, m, p as real);
    ScaleOrder(m, b, p as real);
  }

  lemma SmaIsBetweenExtremes(h: seq<real>, p: int)
    ensures match Sma(h, p)
      case None => Lowest(h, p) == None && Highest(h, p) == None
      case Some(m) => Lowest(h, p).Some? && Highest(h, p).Some? && Lowest(h, p).value <= m <= Highest(h, p).value
  {
    if 0 < p <= |h| {
      var hi, lo := ExtremesAreAttained(h, p);
      SumBetween(h, p, MinAgo(h, p), MaxAgo(h, p));
      MeanBetween(SumAgo(h, p), p, MinAgo(h, p), MaxAgo(h, p));
    }
  }

  /** A window's sum is the difference of two running totals. */
  lemma {:induction false} SumIsDifferenceOfTotals(h: seq<real>, p: nat)
    requires p <= |h|
    ensures SumAgo(h, p) == SumAgo(h, |h|) - SumAgo(h[..|h| - p], |h| - p)
    decreases |h| - p
  {
    if p < |h| {
      SumIsDifferenceOfTotals(h, p + 1);
      PrefixStep(h[..|h| - p]);
      assert h[..|h| - p][..|h| - p - 1] == h[..|h| - p - 1];
    }
  }

  lemma PrefixStep(h: seq<real>)
    requires h != []
    ensures SumAgo(h, |h|) == SumAgo(h[..|h| - 1], |h| - 1) + h[|h| - 1]
  {
    SumShift(h[..|h| - 1], h[|h| - 1], |h| - 1);
    assert h[..|h| - 1] + [h[|h| - 1]] == h;
  }

  /** One more value slides the window. */
  lemma {:induction false} SumShift(h: seq<real>, v: real, p: nat)
    requires p <= |h|
    ensures SumAgo(h + [v], p + 1) == v + SumAgo(h, p)
  {
    if p > 0 {
      SumShift(h, v, p - 1);
    }
  }

  /** The moving average times its period is a difference of two running totals. */
  lemma SmaIsTheMean(h: seq<real>, p: int)
    ensures Sma(h, p).Some? <==> 0 < p <= |h|
    ensures 0 < p <= |h| ==> Sma(h, p).value * p as real == SumAgo(h, |h|) - SumAgo(h[..|h| - p], |h| - p)
  {
    if 0 < p <= |h| { SumIsDifferenceOfTotals(h, p); }
  }

  // ---- The series object -----------------------------------------------------------------------------

  class Series<T(!new)> {
    const maxLookback: int
    var data: seq<T>
    var currentBar: nat
    var warmup: int
    ghost var history: seq<T>      // everything pushed since the last reset

    ghost predicate Consistent()
      reads this
    {
      data == Retained(history, maxLookback) && currentBar == |history|
    }

    constructor (maxLookback: int, warmup: int)
      ensures Consistent() && history == [] && this.maxLookback == maxLookback && this.warmup == warmup
    {
      this.maxLookback, this.warmup := maxLookback, warmup;
      data, currentBar, history := [], 0, [];
    }

    method Push(v: T)
      requires Consistent()
      modifies this
      ensures Consistent() && history == old(history) + [v] && warmup == old(warmup)
    {
      RetainedPush(history, maxLookback, v);
      data := data + [v];
      if 0 < maxLookback < |data| {
        data := data[1..];
      }
      currentBar := currentBar + 1;
      history := history + [v];
    }

    method Reset()
      modifies this
      ensures Consistent() && history == [] && warmup == old(warmup)
    {
      data, currentBar, history := [], 0, [];
    }

    method SetWarmup(period: int)
      requires Consistent()
      modifies this`warmup
      ensures Consistent() && warmup == period
    {
      warmup := period;
    }

    function Count(): (n: nat)
      requires Consistent()
      reads this
      ensures n == Available(|history|, maxLookback)
    {
      |data|
    }

    predicate IsReady()
      requires Consistent()
      reads this
      ensures IsReady() <==> Available(|history|, maxLookback) >= warmup
    {
      Count() >= warmup
    }

    /** The value pushed i pushes ago, while it is within the lookback. */
    function Get(i: int): (r: Option<T>)
      requires Consistent()
      reads this
      ensures r == if i < Available(|history|, maxLookback) then Ago(history, i) else None
    {
      RetainedAgo(history, maxLookback, i);
      if data == [] || i < 0 then None
      else if |data| - 1 - i < 0 then None
      else Some(data[|data| - 1 - i])
    }

    /** The newest values first, as many as asked for and available. */
    method Take(n: int) returns (r: seq<T>)
      requires Consistent()
      ensures |r| == if n < 0 then 0 else if n < Count() then n else Count()
      ensures forall i :: 0 <= i < |r| ==> Ago(history, i) == Some(r[i])
    {
      r := [];
      var k := if n < |data| then n else |data|;
      var i := 0;
      while i < k
        invariant 0 <= i && i <= (if k < 0 then 0 else k) && |r| == i
        invariant forall j :: 0 <= j < i ==> Ago(history, j) == Some(r[j])
      {
        var v := Get(i);
        if v.Some? {
          r := r + [v.value];
        }
        i := i + 1;
      }
    }
  }

  // ---- The indicators a series of decimals adds ---------------------------------------------------------

  function SmaOf(s: Series<real>, p: int): (r: Option<real>)
    requires s.Consistent()
    reads s
    ensures r == if p <= Available(|s.history|, s.maxLookback) then Sma(s.history, p) else None
  {
    IndicatorsIgnoreEviction(s.history, s.maxLookback, p);
    Sma(s.data, p)
  }

  function SumOf(s: Series<real>, p: int): (r: Option<real>)
    requires s.Consistent()
    reads s
    ensures r == if p <= Available(|s.history|, s.maxLookback) then Sum(s.history, p) else None
  {
    IndicatorsIgnoreEviction(s.history, s.maxLookback, p);
    Sum(s.data, p)
  }

  function HighestOf(s: Series<real>, p: int): (r: Option<real>)
    requires s.Consistent()
    reads s
    ensures r == if p <= Available(|s.history|, s.maxLookback) then Highest(s.history, p) else None
  {
    IndicatorsIgnoreEviction(s.history, s.maxLookback, p);
    Highest(s.data, p)
  }

  function LowestOf(s: Series<real>, p: int): (r: Option<real>)
    requires s.Consistent()
    reads s
    ensures r == if p <= Available(|s.history|, s.maxLookback) then Lowest(s.history, p) else None
  {
    IndicatorsIgnoreEviction(s.history, s.maxLookback, p);
    Lowest(s.data, p)
  }
}
