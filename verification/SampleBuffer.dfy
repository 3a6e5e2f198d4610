/** The capped sample buffer and the nearest-rank percentiles taken from it. */
module SampleBuffers {
  import opened Arithmetic
  import opened Sorting

  // ---- The sample buffer ---------------------------------------------------------------

  /** The slot the n-th value goes to once the buffer is full. */
  function Wrap(n: nat, limit: nat): (i: nat)
    requires limit >= 1
    ensures i < limit
  {
    n % limit
  }

  /** The buffer after recording xs: filled to the limit, then slot (count mod limit)
      is overwritten. */
  function Buffer(xs: seq<nat>, limit: nat): (b: seq<nat>)
    requires limit >= 1
    ensures |b| == if |xs| < limit then |xs| else limit
  {
    if xs == [] then [] else
    var b := Buffer(xs[..|xs| - 1], limit);
    if |b| < limit then b + [xs[|xs| - 1]] else b[Wrap(|xs|, limit) := xs[|xs| - 1]]
  }

  /** Which recorded value slot i holds once n > limit values have been recorded. */
  function Held(n: nat, limit: nat, i: nat): int
    requires limit >= 1 && i < limit
  {
    var r := n % limit;
    var j := if i <= r then n - r + i - 1 else n - r - limit + i - 1;
    if j < limit then i else j
  }

  lemma {:induction false} BufferSlots(xs: seq<nat>, limit: nat, i: nat)
    requires limit >= 1 && i < limit && |xs| > limit
    ensures 0 <= Held(|xs|, limit, i) < |xs|
    ensures Buffer(xs, limit)[i] == xs[Held(|xs|, limit, i)]
  {
    var n := |xs|;
    HeldStep(n, limit, i);
    if n - 1 > limit {
      BufferSlots(xs[..n - 1], limit, i);
    } else {
      BufferIsAll(xs[..n - 1], limit);
    }
  }

  lemma {:induction false} BufferIsAll(xs: seq<nat>, limit: nat)
    requires limit >= 1 && |xs| <= limit
    ensures Buffer(xs, limit) == xs
  {
    if xs != [] {
      BufferIsAll(xs[..|xs| - 1], limit);
      assert xs == xs[..|xs| - 1] + [xs[|xs| - 1]];
    }
  }

  lemma HeldStep(n: nat, limit: nat, i: nat)
    requires limit >= 1 && i < limit && n > limit
    ensures 0 <= Held(n, limit, i) < n
    ensures i == n % limit ==> Held(n, limit, i) == n - 1
    ensures i != n % limit && n - 1 > limit ==> Held(n, limit, i) == Held(n - 1, limit, i)
    ensures i != n % limit && n - 1 == limit ==> Held(n, limit, i) == i
  {
    var q, r := n / limit, n % limit;
    assert n == q * limit + r;
    DivStep(n, limit);
    if n - 1 == limit {
      assert r == if limit == 1 then 0 else 1;
    }
  }

  lemma DivStep(n: nat, limit: nat)
    requires limit >= 1 && n > limit
    ensures (n - 1) % limit == if n % limit == 0 then limit - 1 else n % limit - 1
    ensures n - n % limit >= limit
    ensures n == limit + 1 ==> n % limit == if limit == 1 then 0 else 1
  {
    var q, r := n / limit, n % limit;
    assert n == q * limit + r && q >= 1 by {
      if q < 1 { TimesMono(q, 0, limit); }
    }
    if r == 0 {
      assert n - 1 == (q - 1) * limit + (limit - 1);
      DivUnique(n - 1, limit, q - 1, limit - 1);
    } else {
      DivUnique(n - 1, limit, q, r - 1);
    }
    assert q * limit >= limit by { assert (q - 1) * limit >= 0; }
    if n == limit + 1 && limit > 1 {
      DivUnique(n, limit, 1, 1);
    }
  }

  /** Between one and two buffers full: the first record and the latest limit - 1. */
  lemma BufferWhileFilling(xs: seq<nat>, limit: nat)
    requires limit >= 1 && limit < |xs| < 2 * limit
    ensures Buffer(xs, limit) == [xs[0]] + xs[limit..] + xs[|xs| - limit + 1..limit]
    ensures multiset(Buffer(xs, limit)) == multiset([xs[0]] + xs[|xs| - limit + 1..])
  {
    var n := |xs|;
    DivUnique(n, limit, 1, n - limit);
    var b := [xs[0]] + xs[limit..] + xs[n - limit + 1..limit];
    forall i | 0 <= i < limit ensures Buffer(xs, limit)[i] == b[i] {
      BufferSlots(xs, limit, i);
    }
    assert xs[n - limit + 1..] == xs[n - limit + 1..limit] + xs[limit..];
  }

  /** From two buffers full on: exactly the latest limit records, the oldest of them
      just behind the slot written last. */
  lemma BufferIsLatest(xs: seq<nat>, limit: nat)
    requires limit >= 1 && |xs| >= 2 * limit
    ensures var n, r := |xs|, |xs| % limit;
      Buffer(xs, limit) == xs[n - r - 1..] + xs[n - limit..n - r - 1]
    ensures multiset(Buffer(xs, limit)) == multiset(xs[|xs| - limit..])
  {
    forall i | 0 <= i < limit
      ensures Buffer(xs, limit)[i] == xs[Latest(|xs|, limit, |xs| % limit, i)]
    {
      LatestSlot(xs, limit, i);
    }
    Rotation(Buffer(xs, limit), xs, limit, |xs| % limit);
  }

  function Latest(n: nat, limit: nat, r: nat, i: nat): (j: nat)
    requires n >= 2 * limit && r < limit && i < limit
    ensures j < n
  {
    if i <= r then n - r + i - 1 else n - r - limit + i - 1
  }

  lemma LatestSlot(xs: seq<nat>, limit: nat, i: nat)
    requires limit >= 1 && |xs| >= 2 * limit && i < limit
    ensures Buffer(xs, limit)[i] == xs[Latest(|xs|, limit, |xs| % limit, i)]
  {
    BufferSlots(xs, limit, i);
    TwoFull(|xs|, limit);
  }

  lemma Rotation(b: seq<nat>, xs: seq<nat>, limit: nat, r: nat)
    requires |xs| >= 2 * limit && r < limit && |b| == limit
    requires forall i :: 0 <= i < limit ==> b[i] == xs[Latest(|xs|, limit, r, i)]
    ensures b == xs[|xs| - r - 1..] + xs[|xs| - limit..|xs| - r - 1]
    ensures multiset(b) == multiset(xs[|xs| - limit..])
  {
    var n := |xs|;
    assert b == xs[n - r - 1..] + xs[n - limit..n - r - 1];
    assert xs[n - limit..] == xs[n - limit..n - r - 1] + xs[n - r - 1..];
  }

  lemma TwoFull(n: nat, limit: nat)
    requires limit >= 1 && n >= 2 * limit
    ensures n > limit && n - n % limit >= 2 * limit
  {
    var q := n / limit;
    assert n == q * limit + n % limit;
    if q <= 1 {
      TimesMono(q, 1, limit);
    } else {
      assert (q - 2) * limit >= 0;
    }
  }

  // ---- Percentiles -----------------------------------------------------------------------

  const VALUE: nat -> int := (x: nat) => x

  /** Nearest rank: p percent of the last index, halves rounded up, kept in range. */
  function Rank(p: real, n: nat): (i: nat)
    requires n >= 1
    ensures i < n
  {
    var x := p / 100.0 * (n - 1) as real;
    var i := if x <= 0.0 then 0 else (x + 0.5).Floor;
    if i < n then i else n - 1
  }

  function Percentile(samples: seq<nat>, p: real): nat {
    if samples == [] then 0 else SortBy(samples, VALUE)[Rank(p, |samples|)]
  }

  /** For p percent, i is the position of n nearest to that share of the last position, halves
      rounded up. */
  predicate Nearest(p: real, n: nat, i: int) {
    0 <= i < n && i as real - 0.5 <= p * (n - 1) as real / 100.0 < i as real + 0.5
  }

  /** With the samples in order of size, v is the one at the position nearest to p percent: at
      most so many samples are below it, and more at or below it. */
  ghost predicate AtPercent(samples: seq<nat>, p: real, v: nat) {
    v in samples && exists i :: Nearest(p, |samples|, i) && Below(samples, v) <= i < Below(samples, v + 1)
  }

  lemma RankIsNearest(p: real, n: nat)
    requires n >= 1 && 0.0 <= p <= 100.0
    ensures Nearest(p, n, Rank(p, n))
  {
    var m := (n - 1) as real;
    var x := p / 100.0 * m;
    NoNegative(100.0 - p, m);
    NoNegative(p, m);
    assert (100.0 - p) * m == 100.0 * m - p * m;
    SamePercent(p, m);
  }

  lemma NoNegative(a: real, b: real)
    requires a >= 0.0 && b >= 0.0
    ensures a * b >= 0.0
  {}

  lemma SamePercent(p: real, m: real)
    ensures p / 100.0 * m == p * m / 100.0
  {}

  /** How many of xs are less than v. */
  function Below(xs: seq<nat>, v: nat): nat {
    if xs == [] then 0 else Below(xs[..|xs| - 1], v) + if xs[|xs| - 1] < v then 1 else 0
  }

  lemma {:induction false} BelowConcat(a: seq<nat>, b: seq<nat>, v: nat)
    ensures Below(a + b, v) == Below(a, v) + Below(b, v)
  {
    if b == [] {
      assert a + b == a;
    } else {
      assert (a + b)[..|a + b| - 1] == a + b[..|b| - 1];
      BelowConcat(a, b[..|b| - 1], v);
    }
  }

  lemma BelowAppend(a: seq<nat>, x: nat, v: nat)
    ensures Below(a + [x], v) == Below(a, v) + if x < v then 1 else 0
  {
    assert (a + [x])[..|a|] == a;
  }

  lemma BelowInsert(t: seq<nat>, i: nat, x: nat, v: nat)
    requires i <= |t|
    ensures Below(t[..i] + [x] + t[i..], v) == Below(t + [x], v)
  {
    hide Below;
    BelowConcat(t[..i], t[i..], v);
    assert t == t[..i] + t[i..];
    BelowAppend(t[..i], x, v);
    BelowAppend(t, x, v);
    BelowConcat(t[..i] + [x], t[i..], v);
  }

  lemma {:induction false} BelowSorted(xs: seq<nat>, v: nat)
    ensures Below(SortBy<nat>(xs, VALUE), v) == Below(xs, v)
  {
    hide Below, Slot;
    if xs != [] {
      var t: seq<nat>, x: nat := SortBy<nat>(xs[..|xs| - 1], VALUE), xs[|xs| - 1];
      BelowSorted(xs[..|xs| - 1], v);
      BelowInsert(t, Slot<nat>(t, VALUE, x), x, v);
      BelowAppend(t, x, v);
      BelowAppend(xs[..|xs| - 1], x, v);
      assert xs == xs[..|xs| - 1] + [x];
    }
  }

  lemma {:induction false} BelowPosition(t: seq<nat>, i: nat, v: nat)
    requires Ordered(t, VALUE) && i <= |t|
    requires forall j :: 0 <= j < |t| ==> (t[j] < v <==> j < i)
    ensures Below(t, v) == i
  {
    if t != [] {
      var n := |t| - 1;
      BelowPosition(t[..n], if i <= n then i else n, v);
    }
  }

  /** In an ordered list, position i holds the value with at most i elements below
      it and more than i elements at or below it. */
  lemma OrderStatistic(t: seq<nat>, i: nat)
    requires Ordered(t, VALUE) && i < |t|
    ensures Below(t, t[i]) <= i < Below(t, t[i] + 1)
  {
    var lo, hi := FirstAtLeast(t, t[i]), FirstAtLeast(t, t[i] + 1);
    BelowPosition(t, lo, t[i]);
    BelowPosition(t, hi, t[i] + 1);
  }

  /** The percentile is the sample at the nearest rank in order of size; the 0th is
      the least sample and the 100th the greatest. */
  lemma PercentileIsAnOrderStatistic(samples: seq<nat>, p: real)
    requires samples != []
    ensures var v, i := Percentile(samples, p), Rank(p, |samples|);
      v in samples && Below(samples, v) <= i < Below(samples, v + 1)
    ensures 0.0 <= p <= 100.0 ==> AtPercent(samples, p, Percentile(samples, p))
    ensures forall x :: x in samples ==>
      (p <= 0.0 ==> Percentile(samples, p) <= x) && (p >= 100.0 ==> x <= Percentile(samples, p))
  {
    hide Rank, SortBy, Below;
    var t: seq<nat> := SortBy<nat>(samples, VALUE);
    var i := Rank(p, |samples|);
    SortByPermutes<nat>(samples, VALUE);
    SortByIsStableSort<nat>(samples, VALUE);
    assert t[i] in multiset(t);
    OrderStatistic(t, i);
    BelowSorted(samples, t[i]);
    BelowSorted(samples, t[i] + 1);
    RankEnds(p, |samples|);
    if 0.0 <= p <= 100.0 { RankIsNearest(p, |samples|); }
    forall x | x in samples
      ensures (p <= 0.0 ==> t[i] <= x) && (p >= 100.0 ==> x <= t[i])
    {
      assert x in multiset(t);
    }
  }

  lemma RankEnds(p: real, n: nat)
    requires n >= 1
    ensures p <= 0.0 ==> Rank(p, n) == 0
    ensures p >= 100.0 ==> Rank(p, n) == n - 1
  {
    var m := (n - 1) as real;
    if p <= 0.0 {
      assert p / 100.0 * m <= 0.0;
    }
    if p >= 100.0 {
      assert (p / 100.0 - 1.0) * m >= 0.0;
      assert p / 100.0 * m >= m;
    }
  }

  function FirstAtLeast(t: seq<nat>, v: nat): (i: nat)
    requires Ordered(t, VALUE)
    ensures i <= |t|
    ensures forall j :: 0 <= j < |t| ==> (t[j] < v <==> j < i)
  {
    if t == [] then 0 else
    var n := |t| - 1;
    if t[n] < v then |t| else FirstAtLeast(t[..n], v)
  }

  lemma PercentileIsMonotone(samples: seq<nat>, p: real, q: real)
    requires p <= q
    ensures Percentile(samples, p) <= Percentile(samples, q)
  {
    hide Rank, SortBy;
    if samples != [] {
      SortByIsStableSort<nat>(samples, VALUE);
      RankIsMonotone(p, q, |samples|);
    }
  }

  lemma RankIsMonotone(p: real, q: real, n: nat)
    requires p <= q && n >= 1
    ensures Rank(p, n) <= Rank(q, n)
  {
    var m := (n - 1) as real;
    assert (q / 100.0 - p / 100.0) * m >= 0.0;
    assert p / 100.0 * m <= q / 100.0 * m;
  }

  /** Only which samples there are matters, not their order. */
  lemma PercentileOfPermuted(xs: seq<nat>, ys: seq<nat>, p: real)
    requires multiset(xs) == multiset(ys)
    ensures Percentile(xs, p) == Percentile(ys, p)
  {
    hide Rank, SortBy;
    assert |xs| == |multiset(xs)| == |multiset(ys)| == |ys|;
    SortByPermutes<nat>(xs, VALUE);
    SortByPermutes<nat>(ys, VALUE);
    SortByIsStableSort<nat>(xs, VALUE);
    SortByIsStableSort<nat>(ys, VALUE);
    SortedValuesUnique(SortBy<nat>(xs, VALUE), SortBy<nat>(ys, VALUE));
  }

  lemma {:induction false} SortedValuesUnique(t: seq<nat>, u: seq<nat>)
    requires Ordered(t, VALUE) && Ordered(u, VALUE) && multiset(t) == multiset(u)
    ensures t == u
    decreases |t|
  {
    assert |t| == |multiset(t)| == |multiset(u)| == |u|;
    if t != [] {
      var n := |t| - 1;
      LastIsGreatest(t, u);
      LastIsGreatest(u, t);
      RemoveAtMultiset(t, n);
      RemoveAtMultiset(u, n);
      assert RemoveAt(t, n) == t[..n] && RemoveAt(u, n) == u[..n];
      SameRest(multiset(t[..n]), multiset(u[..n]), t[n]);
      SortedValuesUnique(t[..n], u[..n]);
      assert t == t[..n] + [t[n]] && u == u[..n] + [u[n]];
    }
  }

  lemma LastIsGreatest(t: seq<nat>, u: seq<nat>)
    requires Ordered(u, VALUE) && multiset(t) == multiset(u) && |t| == |u| > 0
    ensures t[|t| - 1] <= u[|u| - 1]
  {
    assert t[|t| - 1] in multiset(u);
  }

  lemma BufferStep(xs: seq<nat>, x: nat, limit: nat)
    requires limit >= 1
    ensures var b := Buffer(xs, limit);
      Buffer(xs + [x], limit) == if |b| < limit then b + [x] else b[Wrap(|xs| + 1, limit) := x]
  {
    assert (xs + [x])[..|xs|] == xs;
  }
}
