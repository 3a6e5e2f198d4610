/** The test data generator. Every random draw is an arbitrary value of its range, so what
    is proved of the output holds for every seed. */
module TestData {
  import opened Arithmetic
  import opened Sorting

  const SECOND: nat := 1_000_000_000

  datatype Profile = Heavy | Normal | Lite
  {
    function TicksPerSecond(): nat {
      match this
      case Heavy => 1000
      case Normal => 250
      case Lite => 25
    }
  }

  /** Symbols are numbered; symbol i is named TEST followed by i. */
  datatype Config = Config(symbolCount: nat, windowSecs: nat, profile: Profile, basePrice: real)
  {
    function Budget(): nat { profile.TicksPerSecond() * windowSecs }
    function ExpectedTickCount(): nat { profile.TicksPerSecond() * symbolCount * windowSecs }
  }

  datatype Stamp = Stamp(ts: nat, symbol: nat)

  const BY_TIME: Stamp -> int := (s: Stamp) => s.ts
  const BY_SYMBOL: Stamp -> int := (s: Stamp) => s.symbol

  method AnyDraws(n: nat) returns (draws: seq<nat>)
    ensures |draws| == n
  {
    assert |seq(n, _ => 0)| == n;
    draws :| |draws| == n;
  }

  method AnyBursts(n: nat) returns (draws: seq<Draw>)
    ensures |draws| == n && forall d :: d in draws ==> d.InRange()
  {
    assert |seq(n, _ => Draw(10, 100_000, 500_000))| == n;
    draws :| |draws| == n && forall d :: d in draws ==> d.InRange();
  }

  method AnyJitters(n: nat) returns (jitters: seq<int>)
    ensures |jitters| == n && forall x :: x in jitters ==> -4_000_000 <= x < 4_000_000
  {
    assert |seq<int>(n, _ => 0)| == n;
    jitters :| |jitters| == n && forall x :: x in jitters ==> -4_000_000 <= x < 4_000_000;
  }

  /** Every stamp is of this symbol and inside the window. */
  ghost predicate Within(stamps: seq<Stamp>, symbol: nat, start: nat, end: nat) {
    forall s :: s in stamps ==> s.symbol == symbol && start <= s.ts < end
  }

  /** Tick i of n lies i n-ths into the duration, to the nanosecond. */
  predicate SpreadAt(offset: int, i: nat, duration: nat, n: nat) {
    0 <= offset && offset * n <= i * duration < (offset + 1) * n
  }

  function Offset(i: nat, duration: nat, burst: nat): int
    requires burst > 0
  {
    (i * duration) / burst
  }

  /** One burst: `burst` ticks spread evenly over `duration`, up to the first outside the window. */
  method Burst(symbol: nat, current: nat, burst: nat, duration: nat, end: nat) returns (stamps: seq<Stamp>)
    requires duration > 0
    ensures |stamps| <= burst && (current + duration <= end ==> |stamps| == burst)
    ensures forall i :: 0 <= i < |stamps| ==> SpreadAt(stamps[i].ts - current, i, duration, burst)
    ensures |stamps| < burst ==> exists offset :: SpreadAt(offset, |stamps|, duration, burst) && current + offset >= end
    ensures Within(stamps, symbol, current, end) && Within(stamps, symbol, current, current + duration) && Rising(stamps)
  {
    OffsetsRise(burst, duration);
    OffsetsSpread(burst, duration);
    hide Offset, SpreadAt;
    stamps := [];
    for i := 0 to burst
      invariant |stamps| <= i && (current + duration <= end ==> |stamps| == i)
      invariant forall k :: 0 <= k < |stamps| ==> stamps[k].ts == current + Offset(k, duration, burst)
      invariant |stamps| < i ==> current + Offset(|stamps|, duration, burst) >= end
      invariant Within(stamps, symbol, current, end) && Within(stamps, symbol, current, current + duration)
    {
      OffsetBound(i, duration, burst);
      var ts := current + Offset(i, duration, burst);
      if ts < end {
        stamps := stamps + [Stamp(ts, symbol)];
      }
    }
  }

  lemma OffsetsRise(burst: nat, duration: nat)
    ensures forall i: nat, k: nat :: i <= k < burst ==> Offset(i, duration, burst) <= Offset(k, duration, burst)
  {
    forall i: nat, k: nat | i <= k < burst ensures Offset(i, duration, burst) <= Offset(k, duration, burst) {
      TimesMono(i, k, duration);
      QuotientMono(i * duration, k * duration, burst);
    }
  }

  lemma QuotientMono(a: nat, b: nat, d: nat)
    requires a <= b && d >= 1
    ensures a / d <= b / d
  {
    if a / d > b / d {
      TimesMono(b / d + 1, a / d, d);
    }
  }

  lemma OffsetsSpread(burst: nat, duration: nat)
    ensures forall i: nat :: i < burst ==> SpreadAt(Offset(i, duration, burst), i, duration, burst)
  {
    forall i: nat | i < burst ensures SpreadAt(Offset(i, duration, burst), i, duration, burst) {
      var x := i * duration;
      assert x == (x / burst) * burst + x % burst;
      assert (x / burst + 1) * burst == (x / burst) * burst + burst;
      if x / burst < 0 { TimesMono(x / burst, -1, burst); }
    }
  }

  lemma OffsetBound(i: nat, duration: nat, burst: nat)
    requires i < burst && duration > 0
    ensures 0 <= Offset(i, duration, burst) < duration
  {
    var q, r := (i * duration) / burst, (i * duration) % burst;
    assert i * duration == q * burst + r;
    assert (burst - i) * duration > 0;
    if q >= duration {
      TimesMono(duration, q, burst);
    } else if q < 0 {
      AtLeast(-q, burst);
    }
  }

  ghost predicate Rising(stamps: seq<Stamp>) { forall i, j :: 0 <= i < j < |stamps| ==> stamps[i].ts <= stamps[j].ts }

  /** No burst is longer than 50 ticks: between a tick and the 50th after it lies a pause. */
  ghost predicate Bursty(stamps: seq<Stamp>) {
    forall i, j :: 0 <= i && i + 50 <= j < |stamps| ==> stamps[i].ts + 500_000 <= stamps[j].ts
  }

  /** What is drawn for a burst: its size, its duration and the pause after it. */
  datatype Draw = Draw(burst: nat, duration: nat, gap: nat)
  {
    predicate InRange() { 10 <= burst <= 50 && 100_000 <= duration < 500_000 && 500_000 <= gap < 2_000_000 }
  }

  /** When burst n begins, from the start; and how many ticks come before it. */
  function BeginOf(draws: seq<Draw>, n: nat): nat
    requires n <= |draws|
  {
    if n == 0 then 0 else BeginOf(draws, n - 1) + draws[n - 1].duration + draws[n - 1].gap
  }

  function TicksBefore(draws: seq<Draw>, n: nat): nat
    requires n <= |draws|
  {
    if n == 0 then 0 else TicksBefore(draws, n - 1) + draws[n - 1].burst
  }

  /** The ticks of burst n, which may use up the budget, are spread over its duration. */
  ghost predicate Drawn(stamps: seq<Stamp>, start: nat, draws: seq<Draw>, n: nat, budget: nat)
    requires n < |draws| && TicksBefore(draws, n) < budget
  {
    var first, left := TicksBefore(draws, n), budget - TicksBefore(draws, n);
    var size := if draws[n].burst < left then draws[n].burst else left;
    first + size <= |stamps| && forall k :: first <= k < first + size ==>
      SpreadAt(stamps[k].ts - start - BeginOf(draws, n), k - first, draws[n].duration, size)
  }

  /** Bursts of 10 to 50 ticks with pauses of half a millisecond or more. However the draws fall,
      the budget is spent in the first quarter of the window, so no tick is filtered out. */
  method HeavyFor(symbol: nat, start: nat, secs: nat, draws: seq<Draw>) returns (stamps: seq<Stamp>)
    requires |draws| == 100 * secs && forall d :: d in draws ==> d.InRange()
    ensures |stamps| == 1000 * secs
    ensures Within(stamps, symbol, start, start + secs * SECOND)
    ensures Within(stamps, symbol, start, start + secs * 250_000_000 + 500_000)
    ensures Rising(stamps) && Bursty(stamps)
    ensures forall n: nat :: n < |draws| && TicksBefore(draws, n) < 1000 * secs ==> Drawn(stamps, start, draws, n, 1000 * secs)
  {
    var end, budget := start + secs * SECOND, 1000 * secs;
    stamps := [];
    var current := start;
    var remaining: nat := budget;
    var n := 0;
    while remaining > 0 && current < end
      invariant 0 <= n && (remaining > 0 ==> 10 * n <= |stamps|) && |stamps| + remaining == budget
      invariant n <= |draws| && current == start + BeginOf(draws, n)
      invariant if remaining > 0 then |stamps| == TicksBefore(draws, n) else TicksBefore(draws, n) >= budget
      invariant forall m: nat :: m < n && TicksBefore(draws, m) < budget ==> Drawn(stamps, start, draws, m, budget)
      invariant remaining > 0 ==> (current - start) * 10 <= 2_499_998 * |stamps|
      invariant Within(stamps, symbol, start, end) && Within(stamps, symbol, start, start + secs * 250_000_000 + 500_000)
      invariant remaining > 0 ==> current + 500_000 <= end
      invariant Rising(stamps) && Bursty(stamps) && forall s :: s in stamps ==> s.ts + 500_000 <= current
      decreases remaining
    {
      var draw := draws[n];
      assert draw in draws;
      var burst := if draw.burst < remaining then draw.burst else remaining;
      var ticks := Burst(symbol, current, burst, draw.duration, end);
      AddBurst(stamps, ticks, symbol, current, draw.duration);
      assert Within(ticks, symbol, start, start + secs * 250_000_000 + 500_000) by { FirstQuarter(current - start, |stamps|, secs); }
      AddDrawn(stamps, ticks, start, draws, n, budget);
      stamps := stamps + ticks;
      remaining := remaining - burst;
      current := current + draw.duration + draw.gap;
      n := n + 1;
      if remaining > 0 {
        BurstFits(current - start, |stamps|, secs);
      }
    }
    TicksGrow(draws, n);
  }

  lemma AddDrawn(stamps: seq<Stamp>, ticks: seq<Stamp>, start: nat, draws: seq<Draw>, n: nat, budget: nat)
    requires n < |draws| && |stamps| == TicksBefore(draws, n) < budget
    requires |ticks| == if draws[n].burst < budget - |stamps| then draws[n].burst else budget - |stamps|
    requires forall i :: 0 <= i < |ticks| ==> SpreadAt(ticks[i].ts - (start + BeginOf(draws, n)), i, draws[n].duration, |ticks|)
    requires forall m: nat :: m < n && TicksBefore(draws, m) < budget ==> Drawn(stamps, start, draws, m, budget)
    ensures forall m: nat :: m <= n && TicksBefore(draws, m) < budget ==> Drawn(stamps + ticks, start, draws, m, budget)
  {
    hide SpreadAt, TicksBefore, BeginOf;
    forall m: nat | m <= n && TicksBefore(draws, m) < budget ensures Drawn(stamps + ticks, start, draws, m, budget) {
      if m < n {
        assert Drawn(stamps, start, draws, m, budget);
      }
    }
  }

  /** Once the budget is used up it stays so. */
  lemma TicksGrow(draws: seq<Draw>, n: nat)
    requires n <= |draws|
    ensures forall m: nat :: n <= m <= |draws| ==> TicksBefore(draws, n) <= TicksBefore(draws, m)
  {
    for k := n to |draws|
      invariant forall m: nat :: n <= m <= k ==> TicksBefore(draws, n) <= TicksBefore(draws, m)
    {
      assert TicksBefore(draws, k + 1) == TicksBefore(draws, k) + draws[k].burst;
    }
  }

  lemma FirstQuarter(elapsed: nat, emitted: nat, secs: nat)
    requires emitted < 1000 * secs && elapsed * 10 <= 2_499_998 * emitted
    ensures elapsed <= secs * 250_000_000
  {}

  lemma AddBurst(stamps: seq<Stamp>, ticks: seq<Stamp>, symbol: nat, current: nat, duration: nat)
    requires Rising(stamps) && Bursty(stamps) && (forall s :: s in stamps ==> s.ts + 500_000 <= current)
    requires Rising(ticks) && |ticks| <= 50 && Within(ticks, symbol, current, current + duration)
    ensures Rising(stamps + ticks) && Bursty(stamps + ticks)
    ensures forall s :: s in stamps + ticks ==> s.ts < current + duration || s.ts + 500_000 <= current
  {
    var all, n := stamps + ticks, |stamps|;
    forall i, j | 0 <= i < j < |all| ensures all[i].ts <= all[j].ts && (i + 50 <= j ==> all[i].ts + 500_000 <= all[j].ts) {
      if j < n {
        assert stamps[i].ts <= stamps[j].ts;
      } else {
        assert ticks[j - n] in ticks;
        if i < n { assert stamps[i] in stamps; } else { assert ticks[i - n].ts <= ticks[j - n].ts; }
      }
    }
  }

  /** Every burst so far had at least 10 ticks and took under 2.5 ms with its gap, so the
      next one still fits. */
  lemma BurstFits(elapsed: nat, emitted: nat, secs: nat)
    requires emitted < 1000 * secs && elapsed * 10 <= 2_499_998 * emitted
    ensures elapsed + 500_000 <= secs * SECOND
  {}

  /** The i-th tick is moved from i times 40 ms after the start by its jitter, but not before it. */
  ghost predicate EvenlySpaced(stamps: seq<Stamp>, start: nat, jitters: seq<int>) {
    |stamps| <= |jitters| && forall i :: 0 <= i < |stamps| ==>
      stamps[i].ts == if i * 40_000_000 + jitters[i] < 0 then start else start + i * 40_000_000 + jitters[i]
  }

  /** Evenly spaced ticks, each moved by up to a tenth of the spacing. */
  method LiteFor(symbol: nat, start: nat, secs: nat, jitters: seq<int>) returns (stamps: seq<Stamp>)
    requires secs >= 1 && |jitters| == 25 * secs && forall x :: x in jitters ==> -4_000_000 <= x < 4_000_000
    ensures |stamps| == 25 * secs && EvenlySpaced(stamps, start, jitters)
    ensures Within(stamps, symbol, start, start + secs * SECOND)
  {
    var window := secs * SECOND;
    var ticks := 25 * secs;
    LiteInterval(secs);
    var interval := window / ticks;
    stamps := [];
    for i := 0 to ticks
      invariant |stamps| == i && EvenlySpaced(stamps, start, jitters)
      invariant Within(stamps, symbol, start, start + window)
    {
      var base := start + i * interval;
      var jitter := jitters[i];
      assert jitter in jitters;
      var ts := if base + jitter < start then start else base + jitter;
      if ts < start + window {
        stamps := stamps + [Stamp(ts, symbol)];
      }
    }
  }

  lemma LiteInterval(secs: nat)
    requires secs >= 1
    ensures (secs * SECOND) / (25 * secs) == 40_000_000
  {
    DivUnique(secs * SECOND, 25 * secs, 40_000_000, 0);
  }

  /** The time that arrivals with these drawn intervals take, each at least a microsecond. */
  function Elapsed(draws: seq<nat>): nat {
    if draws == [] then 0 else Elapsed(draws[..|draws| - 1]) + AtLeastMicro(draws[|draws| - 1])
  }

  function AtLeastMicro(interval: nat): nat { if interval < 1000 then 1000 else interval }

  lemma {:induction false} ElapsedGrows(draws: seq<nat>, n: nat)
    requires n <= |draws|
    ensures Elapsed(draws[..n]) + 1000 * (|draws| - n) <= Elapsed(draws)
  {
    if n < |draws| {
      var last := |draws| - 1;
      ElapsedGrows(draws[..last], n);
      assert draws[..last][..n] == draws[..n];
    } else {
      assert draws[..n] == draws;
    }
  }

  lemma ElapsedStep(draws: seq<nat>, n: nat)
    requires n < |draws|
    ensures Elapsed(draws[..n + 1]) == Elapsed(draws[..n]) + AtLeastMicro(draws[n])
  {
    assert draws[..n + 1][..n] == draws[..n];
  }

  /** The k-th tick is where the first k draws lead. */
  ghost predicate Arrivals(stamps: seq<Stamp>, symbol: nat, start: nat, draws: seq<nat>) {
    |stamps| <= |draws| && forall i :: 0 <= i < |stamps| ==> stamps[i] == Stamp(start + Elapsed(draws[..i + 1]), symbol)
  }

  /** Each tick comes the drawn interval, or a microsecond if that is longer, after the one before. */
  ghost predicate Gaps(stamps: seq<Stamp>, start: nat, draws: seq<nat>) {
    |stamps| <= |draws| && forall i :: 0 <= i < |stamps| ==>
      stamps[i].ts - (if i == 0 then start else stamps[i - 1].ts) == if draws[i] < 1000 then 1000 else draws[i]
  }

  lemma ArrivalsApart(stamps: seq<Stamp>, symbol: nat, start: nat, draws: seq<nat>)
    requires Arrivals(stamps, symbol, start, draws)
    ensures Gaps(stamps, start, draws)
  {
    assert Elapsed(draws[..0]) == 0;
    hide Elapsed;
    forall i | 0 <= i < |stamps|
      ensures stamps[i].ts - (if i == 0 then start else stamps[i - 1].ts) == if draws[i] < 1000 then 1000 else draws[i]
    {
      ElapsedStep(draws, i);
    }
  }

  /** Random arrivals, stopping at the end of the window: the budget is spent exactly when all
      draws together stay in the window. */
  method NormalFor(symbol: nat, start: nat, secs: nat, draws: seq<nat>) returns (stamps: seq<Stamp>)
    requires |draws| == 250 * secs
    ensures Arrivals(stamps, symbol, start, draws)
    ensures |stamps| == 250 * secs <==> secs == 0 || Elapsed(draws) < secs * SECOND
    ensures |stamps| < 250 * secs ==> Elapsed(draws[..|stamps| + 1]) >= secs * SECOND
    ensures Within(stamps, symbol, start, start + secs * SECOND)
    ensures Gaps(stamps, start, draws)
  {
    hide Gaps;
    var window := secs * SECOND;
    stamps := [];
    var current := start;
    assert Elapsed(draws[..0]) == 0;
    hide Elapsed;
    for n := 0 to 250 * secs
      invariant |stamps| == n && current == start + Elapsed(draws[..n])
      invariant n > 0 ==> current < start + window
      invariant Within(stamps, symbol, start, start + window) && Arrivals(stamps, symbol, start, draws)
    {
      ElapsedStep(draws, n);
      current := current + AtLeastMicro(draws[n]);
      if current < start + window {
        stamps := stamps + [Stamp(current, symbol)];
      } else {
        ElapsedGrows(draws, n + 1);
        break;
      }
    }
    assert draws[..|draws|] == draws;
    ArrivalsApart(stamps, symbol, start, draws);
    hide Arrivals;
  }

  /** The stamps of the symbols below n: the class of each is its budget, or for the
      random profile at most its budget. */
  ghost predicate Budgeted(stamps: seq<Stamp>, c: Config, n: nat, start: nat) {
    && (forall s :: s in stamps ==> s.symbol < n && start <= s.ts < start + c.windowSecs * SECOND)
    && (forall k: nat :: k < n ==> |OfKey(stamps, BY_SYMBOL, k)| <= c.Budget())
    && (!c.profile.Normal? ==> forall k: nat :: k < n ==> |OfKey(stamps, BY_SYMBOL, k)| == c.Budget())
    && (!c.profile.Normal? ==> |stamps| == n * c.Budget())
  }

  /** The stamps of all symbols in time order. */
  method GenerateTimestamps(c: Config, start: nat) returns (stamps: seq<Stamp>)
    requires c.profile.Lite? ==> c.windowSecs >= 1
    ensures Rising(stamps)
    ensures Budgeted(stamps, c, c.symbolCount, start)
  {
    var all: seq<Stamp> := [];
    for n := 0 to c.symbolCount
      invariant Budgeted(all, c, n, start)
    {
      var one: seq<Stamp>;
      match c.profile {
        case Heavy =>
          var draws := AnyBursts(100 * c.windowSecs);
          one := HeavyFor(n, start, c.windowSecs, draws);
        case Normal =>
          var draws := AnyDraws(250 * c.windowSecs);
          one := NormalFor(n, start, c.windowSecs, draws);
        case Lite =>
          var jitters := AnyJitters(25 * c.windowSecs);
          one := LiteFor(n, start, c.windowSecs, jitters);
      }
      AddSymbol(all, one, c, n, start);
      all := all + one;
    }
    SortByIsStableSort(all, BY_TIME);
    SortKeepsBudget(all, c, start);
    stamps := SortBy(all, BY_TIME);
    RisingIsOrdered(stamps);
  }

  lemma RisingIsOrdered(stamps: seq<Stamp>)
    requires Ordered(stamps, BY_TIME)
    ensures Rising(stamps)
  {
    forall i, j | 0 <= i < j < |stamps| ensures stamps[i].ts <= stamps[j].ts {
      assert BY_TIME(stamps[i]) <= BY_TIME(stamps[j]);
    }
  }

  lemma AddSymbol(all: seq<Stamp>, one: seq<Stamp>, c: Config, n: nat, start: nat)
    requires Budgeted(all, c, n, start) && Within(one, n, start, start + c.windowSecs * SECOND)
    requires |one| <= c.Budget() && (!c.profile.Normal? ==> |one| == c.Budget())
    ensures Budgeted(all + one, c, n + 1, start)
  {
    OneSymbol(all, one, n);
    var b := c.Budget();
    assert (n + 1) * b == n * b + b;
  }

  lemma SortKeepsBudget(all: seq<Stamp>, c: Config, start: nat)
    requires Budgeted(all, c, c.symbolCount, start)
    ensures Budgeted(SortBy(all, BY_TIME), c, c.symbolCount, start)
  {
    hide SortBy, OfKey;
    var stamps := SortBy(all, BY_TIME);
    SortByPermutes(all, BY_TIME);
    forall k: nat ensures |OfKey(stamps, BY_SYMBOL, k)| == |OfKey(all, BY_SYMBOL, k)| {
      SortByKeepsClassSizes(all, BY_TIME, BY_SYMBOL, k);
    }
    forall s | s in stamps ensures s in all {
      assert s in multiset(stamps);
    }
  }

  lemma BudgetIsExpected(c: Config)
    ensures c.symbolCount * c.Budget() == c.ExpectedTickCount()
  {
    var t := c.profile.TicksPerSecond();
    assert c.symbolCount * (t * c.windowSecs) == (t * c.symbolCount) * c.windowSecs;
  }

  /** Adding the stamps of a new symbol adds one class and changes no other. */
  lemma OneSymbol(all: seq<Stamp>, one: seq<Stamp>, n: nat)
    requires forall s :: s in all ==> s.symbol < n
    requires forall s :: s in one ==> s.symbol == n
    ensures OfKey(all + one, BY_SYMBOL, n) == one
    ensures forall k: nat :: k < n ==> OfKey(all + one, BY_SYMBOL, k) == OfKey(all, BY_SYMBOL, k)
  {
    AllOfKey(one, n);
    forall k: nat | k <= n ensures OfKey(all + one, BY_SYMBOL, k) == if k == n then one else OfKey(all, BY_SYMBOL, k) {
      OfKeyConcat(all, one, BY_SYMBOL, k);
      hide OfKey;
      if k == n {
        if OfKey(all, BY_SYMBOL, k) != [] {
          OfKeyMember(all, BY_SYMBOL, k, OfKey(all, BY_SYMBOL, k)[0]);
        }
      } else if OfKey(one, BY_SYMBOL, k) != [] {
        OfKeyMember(one, BY_SYMBOL, k, OfKey(one, BY_SYMBOL, k)[0]);
      }
    }
  }

  lemma {:induction false} AllOfKey(one: seq<Stamp>, n: nat)
    requires forall s :: s in one ==> s.symbol == n
    ensures OfKey(one, BY_SYMBOL, n) == one
  {
    if one != [] {
      AllOfKey(one[..|one| - 1], n);
    }
  }

  // ---- Ticks -------------------------------------------------------------------------------

  datatype Side = Buy | Sell
  datatype Tick = Tick(ts: nat, symbol: nat, price: real, size: nat, side: Side, sequence: nat)

  const TICK_TIME: Tick -> int := (t: Tick) => t.ts
  const TICK_SYMBOL: Tick -> int := (t: Tick) => t.symbol

  /** The lowest and highest price k steps of at most a thousandth can reach. */
  function LowPrice(base: real, k: nat): real { if k == 0 then base else LowPrice(base, k - 1) * 0.999 }
  function HighPrice(base: real, k: nat): real { if k == 0 then base else HighPrice(base, k - 1) * 1.001 }

  /** A walk from a price that is not positive starts again from one. */
  function Origin(base: real): real { if base > 0.0 then base else 1.0 }

  predicate Walked(price: real, base: real, k: nat) {
    0.0 < price && LowPrice(Origin(base), k) <= price <= HighPrice(Origin(base), k)
  }

  /** Tick number k (from 0) of a symbol. */
  predicate KthTick(t: Tick, k: nat, base: real) {
    && t.sequence == k + 1 && t.size == k + 2 && t.side == (if k % 2 == 0 then Buy else Sell)
    && Walked(t.price, base, k + 1)
  }

  /** One step of the walk, by the fraction pct. */
  function Moved(price: real, pct: real): real { price + price * pct }

  lemma StepSize(price: real, pct: real)
    requires -0.001 <= pct < 0.001
    ensures price > 0.0 ==> price * 0.999 <= Moved(price, pct) <= price * 1.001 && Moved(price, pct) > 0.0
    ensures price <= 0.0 ==> Moved(price, pct) <= 0.0
    ensures Moved(price, pct) == price * (1.0 + pct)
  {
    if price > 0.0 {
      Product(price, pct + 0.001);
      Product(price, 0.001 - pct);
    } else {
      Product(-price, pct + 1.0);
    }
  }

  lemma Product(a: real, b: real)
    requires a >= 0.0 && b >= 0.0
    ensures a * b >= 0.0
  {}

  lemma WalkStep(before: real, after: real, base: real, k: nat)
    requires if k == 0 then before == base else Walked(before, base, k)
    requires after > 0.0 && if before > 0.0 then before * 0.999 <= after <= before * 1.001 else after == 1.0
    ensures Walked(after, base, k + 1)
  {}

  class SymbolState {
    const base: real
    var price: real
    var sequence: nat
    var sizeCounter: nat
    var isBuy: bool

    ghost predicate Made(k: nat)
      reads this
    {
      && sequence == k && sizeCounter == k + 1 && isBuy == (k % 2 == 0)
      && (if k == 0 then price == base else Walked(price, base, k))
    }

    constructor (basePrice: real)
      ensures Made(0) && base == basePrice
    {
      base := basePrice;
      price, sequence, sizeCounter, isBuy := basePrice, 0, 1, true;
    }

    /** A step of at most a thousandth, by the fraction drawn, from a positive price, or one. */
    method UpdatePrice(pct: real)
      requires -0.001 <= pct < 0.001
      modifies this`price
      ensures price == if old(price) > 0.0 then old(price) * (1.0 + pct) else 1.0
      ensures if old(price) > 0.0 then old(price) * 0.999 <= price <= old(price) * 1.001 else price == 1.0
      ensures price > 0.0
    {
      StepSize(price, pct);
      hide Moved;
      price := Moved(price, pct);
      if price <= 0.0 {
        price := 1.0;
      }
    }

    method NextTick(ts: nat, symbol: nat) returns (t: Tick)
      modifies this
      ensures t.ts == ts && t.symbol == symbol
      ensures forall k: nat :: old(Made(k)) ==> Made(k + 1) && KthTick(t, k, base)
    {
      ghost var before := price;
      var pct: real :| -0.001 <= pct < 0.001;
      UpdatePrice(pct);
      if if sequence == 0 then before == base else Walked(before, base, sequence) {
        WalkStep(before, price, base, sequence);
      }
      sequence := sequence + 1;
      sizeCounter := sizeCounter + 1;
      var side := if isBuy then Buy else Sell;
      isBuy := !isBuy;
      t := Tick(ts, symbol, price, sizeCounter, side, sequence);
    }
  }

  /** In output order, the ticks of each symbol carry consecutive sequence numbers and
      sizes, alternate sides from Buy, and walk by at most a thousandth a tick. */
  ghost predicate Numbered(ticks: seq<Tick>, symbolCount: nat, base: real) {
    forall s: nat, k: nat :: s < symbolCount && k < |OfKey(ticks, TICK_SYMBOL, s)| ==>
      KthTick(OfKey(ticks, TICK_SYMBOL, s)[k], k, base)
  }

  ghost predicate Follows(ticks: seq<Tick>, stamps: seq<Stamp>) {
    && |ticks| == |stamps|
    && forall i :: 0 <= i < |ticks| ==> ticks[i].ts == stamps[i].ts && ticks[i].symbol == stamps[i].symbol
  }

  lemma {:induction false} FollowsClasses(ticks: seq<Tick>, stamps: seq<Stamp>, s: nat)
    requires Follows(ticks, stamps)
    ensures |OfKey(ticks, TICK_SYMBOL, s)| == |OfKey(stamps, BY_SYMBOL, s)|
  {
    if ticks != [] {
      FollowsClasses(ticks[..|ticks| - 1], stamps[..|stamps| - 1], s);
    }
  }

  method Generate(c: Config, start: nat) returns (ticks: seq<Tick>, counts: seq<nat>)
    requires c.profile.Lite? ==> c.windowSecs >= 1
    ensures forall i, j :: 0 <= i < j < |ticks| ==> ticks[i].ts <= ticks[j].ts
    ensures forall t :: t in ticks ==> t.symbol < c.symbolCount && start <= t.ts < start + c.windowSecs * SECOND
    ensures Numbered(ticks, c.symbolCount, c.basePrice)
    ensures |counts| == c.symbolCount
    ensures forall s: nat :: s < c.symbolCount ==> counts[s] == |OfKey(ticks, TICK_SYMBOL, s)| <= c.Budget()
    ensures !c.profile.Normal? ==> |ticks| == c.ExpectedTickCount()
    ensures !c.profile.Normal? ==> forall s: nat :: s < c.symbolCount ==> counts[s] == c.Budget()
  {
    var states := NewStates(c);
    var stamps := GenerateTimestamps(c, start);
    ticks, counts := TicksFor(c, states, stamps);
    forall s: nat | s < c.symbolCount ensures |OfKey(ticks, TICK_SYMBOL, s)| == |OfKey(stamps, BY_SYMBOL, s)| {
      FollowsClasses(ticks, stamps, s);
    }
    forall t | t in ticks ensures t.symbol < c.symbolCount && start <= t.ts < start + c.windowSecs * SECOND {
      var i :| 0 <= i < |ticks| && ticks[i] == t;
      assert stamps[i] in stamps;
    }
    BudgetIsExpected(c);
    assert Ordered(ticks, TICK_TIME) by {
      forall i, j | 0 <= i < j < |ticks| ensures TICK_TIME(ticks[i]) <= TICK_TIME(ticks[j]) {
        assert stamps[i].ts <= stamps[j].ts;
      }
    }
    SortedIsFixed(ticks, TICK_TIME);
    ticks := SortBy(ticks, TICK_TIME);
  }

  method NewStates(c: Config) returns (states: seq<SymbolState>)
    ensures |states| == c.symbolCount
    ensures forall j :: 0 <= j < |states| ==> fresh(states[j]) && states[j].Made(0) && states[j].base == c.basePrice
    ensures forall j, k :: 0 <= j < k < |states| ==> states[j] != states[k]
  {
    states := [];
    for i := 0 to c.symbolCount
      invariant |states| == i
      invariant forall j :: 0 <= j < i ==> fresh(states[j]) && states[j].Made(0) && states[j].base == c.basePrice
      invariant forall j, k :: 0 <= j < k < i ==> states[j] != states[k]
    {
      var state := new SymbolState(c.basePrice);
      states := states + [state];
    }
  }

  /** One tick for each stamp, from the state of its symbol. */
  method TicksFor(c: Config, states: seq<SymbolState>, stamps: seq<Stamp>) returns (ticks: seq<Tick>, counts: seq<nat>)
    requires |states| == c.symbolCount
    requires forall j :: 0 <= j < |states| ==> states[j].Made(0) && states[j].base == c.basePrice
    requires forall j, k :: 0 <= j < k < |states| ==> states[j] != states[k]
    requires forall s :: s in stamps ==> s.symbol < c.symbolCount
    modifies set s | s in states
    ensures Follows(ticks, stamps) && Numbered(ticks, c.symbolCount, c.basePrice)
    ensures |counts| == c.symbolCount
    ensures forall s: nat :: s < c.symbolCount ==> counts[s] == |OfKey(ticks, TICK_SYMBOL, s)|
  {
    hide OfKey;
    counts := seq(c.symbolCount, _ => 0);
    ticks := [];
    NoTicks();
    for n := 0 to |stamps|
      invariant |counts| == c.symbolCount
      invariant forall s: nat :: s < c.symbolCount ==> counts[s] == |OfKey(ticks, TICK_SYMBOL, s)| && states[s].Made(counts[s])
      invariant Numbered(ticks, c.symbolCount, c.basePrice)
      invariant Follows(ticks, stamps[..n])
    {
      var symbol := stamps[n].symbol;
      assert stamps[n] in stamps;
      var tick := states[symbol].NextTick(stamps[n].ts, symbol);
      AddTick(ticks, tick, c.symbolCount, c.basePrice);
      ticks := ticks + [tick];
      counts := counts[symbol := counts[symbol] + 1];
    }
    assert stamps[..|stamps|] == stamps;
  }

  lemma NoTicks()
    ensures forall s: nat :: OfKey([], TICK_SYMBOL, s) == []
  {}

  lemma AddTick(ticks: seq<Tick>, t: Tick, symbolCount: nat, base: real)
    requires Numbered(ticks, symbolCount, base) && KthTick(t, |OfKey(ticks, TICK_SYMBOL, t.symbol)|, base)
    ensures Numbered(ticks + [t], symbolCount, base)
    ensures forall s: nat ::
      |OfKey(ticks + [t], TICK_SYMBOL, s)| == |OfKey(ticks, TICK_SYMBOL, s)| + if s == t.symbol then 1 else 0
  {
    forall s: nat
      ensures OfKey(ticks + [t], TICK_SYMBOL, s) == OfKey(ticks, TICK_SYMBOL, s) + if s == t.symbol then [t] else []
    {
      OfKeyAppend(ticks, t, TICK_SYMBOL, s);
    }
  }
}
