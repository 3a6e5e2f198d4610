/** Streaming latency statistics of the test harness: each object stands for the log of
    every latency recorded or merged into it. */
module LatencyStatistics {
  import opened Moments
  import opened Options
  import opened SampleBuffers
  import opened Sorting

  const DEFAULT_LIMIT: nat := 100_000

  // ---- The statistics object ---------------------------------------------------------------

  class LatencyStats {
    var count: nat
    var sumUs: nat
    var minUs: nat
    var maxUs: nat
    var mean: real
    var m2: real
    var samples: seq<nat>
    var sampleLimit: nat
    ghost var log: seq<nat>    // every value recorded or merged in

    ghost predicate Valid()
      reads this
    {
      && count == |log| && sumUs == Sum(log) && minUs == Min(log) && maxUs == Max(log)
      && mean == Mean(log) && m2 == SquaredDeviations(log, Mean(log))
      && |samples| <= sampleLimit && (log != [] ==> samples != [])
      && (forall x :: x in samples ==> x in log)
    }

    constructor (limit: nat)
      ensures Valid() && log == [] && samples == [] && sampleLimit == limit
      ensures count == sumUs == maxUs == 0 && minUs == 18_446_744_073_709_551_615 && mean == m2 == 0.0
    {
      count, sumUs, minUs, maxUs, mean, m2 := 0, 0, U64_MAX, 0, 0.0, 0.0;
      samples, sampleLimit, log := [], limit, [];
    }

    /** A sample limit of zero divides by zero here. */
    method Record(latency: nat)
      requires Valid() && sampleLimit >= 1
      modifies this
      ensures Valid() && log == old(log) + [latency] && sampleLimit == old(sampleLimit)
      ensures old(samples) == Buffer(old(log), sampleLimit) ==> samples == Buffer(log, sampleLimit)
    {
      hide Mean, SquaredDeviations, Sum, Min, Max, Buffer, Wrap, NewMean, NewM2, Square;
      RecordIsExact(log, latency);
      AppendExtremes(log, latency);
      BufferStep(log, latency, sampleLimit);
      count := count + 1;
      sumUs := sumUs + latency;
      minUs := if minUs < latency then minUs else latency;
      maxUs := if maxUs > latency then maxUs else latency;
      var before := mean;
      mean := NewMean(mean, latency as real, count as real);
      m2 := NewM2(m2, latency as real, before, mean);
      Store(latency);
      log := log + [latency];
    }

    /** Keep the value for the percentiles: fill up, then overwrite. */
    method Store(latency: nat)
      requires sampleLimit >= 1 && |samples| <= sampleLimit
      modifies this`samples
      ensures samples == if |old(samples)| < sampleLimit then old(samples) + [latency]
                         else old(samples)[Wrap(count, sampleLimit) := latency]
      ensures forall x :: x in samples ==> x in old(samples) || x == latency
    {
      if |samples| < sampleLimit {
        samples := samples + [latency];
      } else {
        var idx := Wrap(count, sampleLimit);
        if idx < |samples| {
          samples := samples[idx := latency];
        }
      }
    }

    method Merge(other: LatencyStats)
      requires Valid() && other.Valid() && other != this
      modifies this
      ensures Valid() && log == old(log) + other.log
      ensures sampleLimit == if old(log) == [] && other.log != [] then other.sampleLimit else old(sampleLimit)
      ensures samples == if other.log == [] then old(samples)
                         else if old(log) == [] then other.samples
                         else old(samples) + FirstOf(other.samples, sampleLimit - |old(samples)|)
    {
      hide Mean, SquaredDeviations, Sum, Min, Max, Weighted, Between;
      if other.count == 0 {
        assert other.log == [] && log + other.log == log;
        return;
      }
      var total := count + other.count;
      if count == 0 {
        assert log == [] && log + other.log == other.log;
        count, sumUs, minUs, maxUs, mean, m2 := other.count, other.sumUs, other.minUs, other.maxUs, other.mean, other.m2;
        samples, sampleLimit, log := other.samples, other.sampleLimit, other.log;
        return;
      }
      MergeMean(log, other.log);
      MergeDeviations(log, other.log);
      SumConcat(log, other.log);
      var before := mean;
      mean := Weighted(count as real, mean, other.count as real, other.mean);
      m2 := m2 + (other.m2 + Between(count as real, before, other.count as real, other.mean));
      count := total;
      sumUs := sumUs + other.sumUs;
      minUs := if minUs < other.minUs then minUs else other.minUs;
      maxUs := if maxUs > other.maxUs then maxUs else other.maxUs;
      var remaining := sampleLimit - |samples|;
      samples := samples + FirstOf(other.samples, remaining);
      log := log + other.log;
    }

    function Variance(): (v: real)
      requires Valid()
      reads this
      ensures |log| < 2 ==> v == 0.0
      ensures |log| >= 2 ==> v * (|log| - 1) as real == SquaredDeviations(log, Mean(log))
    {
      if count < 2 then 0.0 else m2 / (count - 1) as real
    }

    /** A percentile of the samples is a recorded value between the extremes. */
    method PercentileUs(p: real) returns (v: nat)
      requires Valid()
      ensures v == Percentile(samples, p) && (log == [] && samples == [] ==> v == 0)
      ensures log != [] && 0.0 <= p <= 100.0 ==> AtPercent(samples, p, v)
      ensures log != [] ==> v in log && minUs <= v <= maxUs
    {
      if samples == [] {
        return 0;
      }
      PercentileIsAnOrderStatistic(samples, p);
      Extremes(log);
      var sorted := SortBy(samples, VALUE);
      v := sorted[Rank(p, |sorted|)];
    }
  }

  function FirstOf(s: seq<nat>, n: nat): (r: seq<nat>)
    ensures r <= s && |r| == if n < |s| then n else |s|
  {
    if n < |s| then s[..n] else s
  }

  // ---- The test results ------------------------------------------------------------------------

  class StrategyMetrics {
    var ticksReceived: nat
    var ticksProcessed: nat
    var firstTick: Option<int>
    var lastTick: Option<int>
    const latency: LatencyStats

    ghost predicate Valid()
      reads this, latency
    {
      && latency.Valid() && ticksProcessed == ticksReceived && |latency.log| <= ticksReceived
      && (firstTick.Some? <==> ticksReceived > 0) && (lastTick.Some? <==> ticksReceived > 0)
    }

    constructor (limit: nat)
      ensures Valid() && fresh(latency) && latency.log == [] && latency.sampleLimit == limit && ticksReceived == 0
    {
      ticksReceived, ticksProcessed, firstTick, lastTick := 0, 0, None, None;
      latency := new LatencyStats(limit);
    }

    /** Count the tick, note the time, and record its latency when there is one. */
    method RecordTick(latencyUs: Option<nat>, now: int)
      requires Valid() && (latencyUs.Some? ==> latency.sampleLimit >= 1)
      modifies this, latency
      ensures Valid() && ticksReceived == old(ticksReceived) + 1
      ensures firstTick == (if old(firstTick) == None then Some(now) else old(firstTick)) && lastTick == Some(now)
      ensures latency.log == old(latency.log) + if latencyUs.Some? then [latencyUs.value] else []
    {
      ticksReceived := ticksReceived + 1;
      if firstTick == None {
        firstTick := Some(now);
      }
      lastTick := Some(now);
      if latencyUs.Some? {
        latency.Record(latencyUs.value);
      }
      ticksProcessed := ticksProcessed + 1;
    }
  }

  /** The aggregate stands for the concatenation of everything the strategies recorded, and
      pools their samples in the order of the strategies. */
  method Aggregate(strategies: seq<StrategyMetrics>) returns (received: nat, aggregate: LatencyStats)
    requires forall s :: s in strategies ==> s.Valid()
    ensures fresh(aggregate) && aggregate.Valid()
    ensures aggregate.log == Flatten(Logs(strategies)) && |aggregate.log| <= received == Received(strategies)
    ensures PoolOf(aggregate) == Pooled(Pools(strategies))
    ensures aggregate.log == [] ==> aggregate.sampleLimit == 100_000
  {
    hide Mean, SquaredDeviations, Sum, Min, Max, Flatten, Logs, Received, Pools, Pooled;
    received := 0;
    NoStrategies();
    aggregate := new LatencyStats(DEFAULT_LIMIT);
    for i := 0 to |strategies|
      invariant fresh(aggregate) && aggregate.Valid()
      invariant aggregate.log == Flatten(Logs(strategies[..i])) && |aggregate.log| <= received == Received(strategies[..i])
      invariant PoolOf(aggregate) == Pooled(Pools(strategies[..i])) && (aggregate.log == [] ==> aggregate.sampleLimit == 100_000)
    {
      var s := strategies[i];
      assert s.Valid();
      received := received + s.ticksReceived;
      OneMoreStrategy(strategies[..i], s);
      assert strategies[..i + 1] == strategies[..i] + [s];
      aggregate.Merge(s.latency);
    }
    assert strategies[..|strategies|] == strategies;
  }

  ghost function Logs(strategies: seq<StrategyMetrics>): seq<seq<nat>>
    reads set s | s in strategies :: s.latency
  {
    if strategies == [] then [] else Logs(strategies[..|strategies| - 1]) + [strategies[|strategies| - 1].latency.log]
  }

  ghost function Received(strategies: seq<StrategyMetrics>): nat
    reads strategies
  {
    if strategies == [] then 0 else Received(strategies[..|strategies| - 1]) + strategies[|strategies| - 1].ticksReceived
  }

  ghost function Pools(strategies: seq<StrategyMetrics>): seq<Pool>
    reads set s | s in strategies :: s.latency
  {
    if strategies == [] then [] else Pools(strategies[..|strategies| - 1]) + [PoolOf(strategies[|strategies| - 1].latency)]
  }

  lemma NoStrategies()
    ensures Flatten(Logs([])) == [] && Received([]) == 0 && Pooled(Pools([])) == Pool([], [], DEFAULT_LIMIT)
  {}

  lemma OneMoreStrategy(strategies: seq<StrategyMetrics>, s: StrategyMetrics)
    ensures Flatten(Logs(strategies + [s])) == Flatten(Logs(strategies)) + s.latency.log
    ensures Received(strategies + [s]) == Received(strategies) + s.ticksReceived
    ensures Pooled(Pools(strategies + [s])) == Merged(Pooled(Pools(strategies)), PoolOf(s.latency))
  {
    assert (strategies + [s])[..|strategies|] == strategies;
  }

  // ---- The pooled samples --------------------------------------------------------------------------

  /** What matters of a statistics object for its percentiles. */
  datatype Pool = Pool(log: seq<nat>, samples: seq<nat>, limit: nat)

  ghost function PoolOf(s: LatencyStats): Pool
    reads s
  {
    Pool(s.log, s.samples, s.sampleLimit)
  }

  function Merged(a: Pool, b: Pool): Pool {
    if b.log == [] then a
    else if a.log == [] then b
    else Pool(a.log + b.log, a.samples + FirstOf(b.samples, if |a.samples| < a.limit then a.limit - |a.samples| else 0), a.limit)
  }

  function Pooled(ps: seq<Pool>): Pool {
    if ps == [] then Pool([], [], DEFAULT_LIMIT) else Merged(Pooled(ps[..|ps| - 1]), ps[|ps| - 1])
  }

  function AllSamples(ps: seq<Pool>): seq<nat> {
    if ps == [] then [] else AllSamples(ps[..|ps| - 1]) + ps[|ps| - 1].samples
  }

  /** Whoever recorded nothing has no samples, as Valid has it. */
  ghost predicate Plain(ps: seq<Pool>) { forall p :: p in ps ==> (p.log == [] ==> p.samples == []) }

  /** So many samples fit the limit of each that recorded something. */
  ghost predicate Fit(ps: seq<Pool>, total: nat) { forall p :: p in ps && p.log != [] ==> total <= p.limit }

  lemma {:induction false} FittingSamplesAreAllKept(ps: seq<Pool>, total: nat)
    requires Plain(ps) && Fit(ps, total) && |AllSamples(ps)| <= total
    ensures Pooled(ps).samples == AllSamples(ps)
    ensures Pooled(ps).log == [] ==> Pooled(ps).samples == []
    ensures Pooled(ps).log != [] ==> total <= Pooled(ps).limit
  {
    if ps != [] {
      var n := |ps| - 1;
      assert ps[n] in ps && forall p :: p in ps[..n] ==> p in ps;
      FittingSamplesAreAllKept(ps[..n], total);
      hide AllSamples, Merged;
      MergedKeepsAll(Pooled(ps[..n]), ps[n], total);
    }
  }

  lemma MergedKeepsAll(a: Pool, b: Pool, total: nat)
    requires (a.log == [] ==> a.samples == []) && (b.log == [] ==> b.samples == [])
    requires (a.log != [] ==> total <= a.limit) && (b.log != [] ==> total <= b.limit) && |a.samples| + |b.samples| <= total
    ensures var m := Merged(a, b);
      m.samples == a.samples + b.samples && (m.log == [] ==> m.samples == []) && (m.log != [] ==> total <= m.limit)
  {}

  lemma {:induction false} TakenOut(ps: seq<Pool>, i: nat)
    requires i < |ps|
    ensures multiset(AllSamples(ps)) == multiset(AllSamples(RemoveAt(ps, i))) + multiset(ps[i].samples)
  {
    hide AllSamples;
    var n := |ps| - 1;
    AllSamplesAppend(ps[..n], ps[n]);
    assert ps == ps[..n] + [ps[n]];
    if i == n {
      assert RemoveAt(ps, i) == ps[..n];
    } else {
      TakenOut(ps[..n], i);
      AllSamplesAppend(RemoveAt(ps[..n], i), ps[n]);
      assert RemoveAt(ps, i) == RemoveAt(ps[..n], i) + [ps[n]];
      hide RemoveAt;
    }
  }

  lemma AllSamplesAppend(ps: seq<Pool>, p: Pool)
    ensures multiset(AllSamples(ps + [p])) == multiset(AllSamples(ps)) + multiset(p.samples)
  {
    assert (ps + [p])[..|ps|] == ps;
  }

  lemma {:induction false} AllSamplesOrder(a: seq<Pool>, b: seq<Pool>)
    requires multiset(a) == multiset(b)
    ensures multiset(AllSamples(a)) == multiset(AllSamples(b))
    decreases |a|
  {
    hide AllSamples;
    assert |a| == |multiset(a)| == |multiset(b)| == |b|;
    if a != [] {
      var n := |a| - 1;
      assert a[n] in multiset(b);
      var i :| 0 <= i < |b| && b[i] == a[n];
      var a', b' := RemoveAt(a, n), RemoveAt(b, i);
      RemoveAtMultiset(b, i);
      RemoveAtMultiset(a, n);
      hide RemoveAt;
      SameRest(multiset(a'), multiset(b'), a[n]);
      AllSamplesOrder(a', b');
      TakenOut(a, n);
      TakenOut(b, i);
    }
  }

  /** Where all samples fit, the strategies may come in any order: the aggregate keeps them all,
      and every percentile is the same. */
  lemma PercentilesIgnoreOrder(a: seq<Pool>, b: seq<Pool>, p: real)
    requires multiset(a) == multiset(b) && Plain(a) && Fit(a, |AllSamples(a)|)
    ensures multiset(Pooled(a).samples) == multiset(Pooled(b).samples) == multiset(AllSamples(a))
    ensures Percentile(Pooled(a).samples, p) == Percentile(Pooled(b).samples, p)
  {
    var total := |AllSamples(a)|;
    AllSamplesOrder(a, b);
    hide AllSamples;
    assert |multiset(AllSamples(a))| == |multiset(AllSamples(b))| == |AllSamples(b)|;
    assert Plain(b) && Fit(b, total) by { forall x | x in b ensures x in a { assert x in multiset(a); } }
    FittingSamplesAreAllKept(a, total);
    FittingSamplesAreAllKept(b, total);
    PercentileOfPermuted(Pooled(a).samples, Pooled(b).samples, p);
  }

  /** Where they do not fit it matters who comes first: one whose samples fill its limit keeps
      every other's out. */
  lemma {:induction false} FirstFillsThePool(first: Pool, rest: seq<Pool>)
    requires first.log != [] && |first.samples| >= first.limit
    ensures Pooled([first] + rest).samples == first.samples
    ensures Pooled([first] + rest).log != [] && Pooled([first] + rest).limit == first.limit
  {
    var all, n := [first] + rest, |rest|;
    if rest == [] {
      assert all[..0] == [] && Pooled(all[..0]).log == [] && all[0] == first;
    } else {
      assert all[..n] == [first] + rest[..n - 1];
      FirstFillsThePool(first, rest[..n - 1]);
      assert first.samples + [] == first.samples;
    }
  }
}
