/** The loop that feeds bars to a strategy: the context takes each bar first, then the
    strategy sees it, once. */
module Bridge {
  import opened Options
  import opened SeriesData
  import opened Bars
  import opened Signals
  import Rsi
  import Sma
  import TickBars

  lemma ClosesPrefix(bars: seq<Bar>, b: Bar)
    ensures Closes(bars + [b]) != [] && Closes(bars + [b])[..|bars|] == Closes(bars)
    ensures Closes(bars + [b]) == Closes(bars) + [b.close]
  {}

  /** The signals over the prefix, then the newest. */
  lemma SignalsGrow<T>(xs: seq<T>, x: T, f: seq<T> -> Opinion)
    ensures SignalsOf(OpinionsOver(xs + [x], f))
         == SignalsOf(OpinionsOver(xs, f)) + [SignalsOf(OpinionsOver(xs + [x], f))[|xs|]]
  {
    var os := OpinionsOver(xs + [x], f);
    forall i | 0 <= i < |xs| ensures OpinionsOver(xs, f)[i] == os[i] {
      assert (xs + [x])[..i + 1] == xs[..i + 1];
    }
    assert os == OpinionsOver(xs, f) + [os[|xs|]];
    PositionFollowsSignal(OpinionsOver(xs, f), os[|xs|]);
  }

  /** Only the core series change, which none of the strategy's own is. */
  method TakeBar(ctx: BarsContext, b: Bar)
    requires ctx.Valid() && Rsi.Following(ctx, Closes(ctx.bars))
    modifies ctx`currentBar, ctx`symbol, ctx`bars, ctx.Core()
    ensures ctx.Valid() && ctx.bars == old(ctx.bars) + [b] && Rsi.Following(ctx, Closes(old(ctx.bars)))
  {
    hide Column, Retained, BarsContext.Aligned, Rsi.Rises, Rsi.Falls;
    ctx.OnBarUpdate(b);
  }

  /** The context takes the bar, then the strategy sees it. */
  method OnBar(ctx: BarsContext, strategy: Rsi.RsiStrategy, b: Bar) returns (signal: Signal)
    requires ctx.Valid() && strategy.period >= 2 && strategy.oversold < strategy.overbought
    requires Rsi.Following(ctx, Closes(ctx.bars)) && strategy.LongAfterAll(Closes(ctx.bars), ctx.maxLookback)
    modifies ctx, ctx.Core(), ctx.custom.Values, strategy`hasPosition
    ensures ctx.Valid() && ctx.bars == old(ctx.bars) + [b] && fresh(ctx.custom.Values - old(ctx.custom.Values))
    ensures Rsi.Following(ctx, Closes(ctx.bars)) && strategy.LongAfterAll(Closes(ctx.bars), ctx.maxLookback)
    ensures var os := Rsi.Opinions(Closes(ctx.bars), ctx.maxLookback, strategy.period, strategy.oversold, strategy.overbought);
      SignalsOf(os) == SignalsOf(Rsi.Opinions(Closes(old(ctx.bars)), ctx.maxLookback,
                                              strategy.period, strategy.oversold, strategy.overbought)) + [signal]
  {
    hide Column, Retained, OpinionsOver, LongAfter, SignalsOf, Available, BarsContext.Aligned, BarsContext.Apart, Rsi.RsiAt, Rsi.Following;
    ClosesPrefix(ctx.bars, b);
    SignalsGrow(Closes(ctx.bars), b.close,
                Rsi.RsiOpinion(ctx.maxLookback, strategy.period, strategy.oversold, strategy.overbought));
    TakeBar(ctx, b);
    signal := strategy.OnBarData(ctx);
  }

  lemma NoBars(L: int, period: int, oversold: real, overbought: real)
    ensures var os := Rsi.Opinions(Closes([]), L, period, oversold, overbought);
      Closes([]) == [] && SignalsOf(os) == [] && !LongAfter(os)
  {}

  /** Over a whole run the RSI strategy emits the signals of its opinions, and its trades alternate. */
  method RunRsi(bars: seq<Bar>, L: int, period: int, oversold: real, overbought: real) returns (signals: seq<Signal>)
    requires period >= 2 && 0.0 <= oversold < overbought <= 100.0
    ensures signals == SignalsOf(Rsi.Opinions(Closes(bars), L, period, oversold, overbought))
    ensures Alternating(Trades(signals))
    ensures |signals| == |bars| && forall k :: 0 <= k < |bars| ==>
      Rsi.TradesOnThresholds(signals[k], Closes(bars), L, period, oversold, overbought, k)
  {
    hide Rsi.TradesOnThresholds;
    hide Column, Retained, OpinionsOver, LongAfter, SignalsOf, Available, BarsContext.Aligned, BarsContext.Apart, Rsi.Opinions, Rsi.RsiAt, Rsi.Tracked, Rsi.Rises, Rsi.Falls;
    NoBars(L, period, oversold, overbought);
    var ctx := new BarsContext("", L);
    var strategy := new Rsi.RsiStrategy();
    var ok := strategy.Initialize(Given(period), Given(oversold), Given(overbought));
    signals := [];
    for i := 0 to |bars|
      invariant fresh(ctx) && fresh(strategy) && fresh(ctx.Core()) && fresh(ctx.custom.Values)
      invariant ctx.Valid() && ctx.bars == bars[..i] && ctx.maxLookback == L
      invariant strategy.period == period && strategy.oversold == oversold && strategy.overbought == overbought
      invariant Rsi.Following(ctx, Closes(ctx.bars)) && strategy.LongAfterAll(Closes(ctx.bars), L)
      invariant signals == SignalsOf(Rsi.Opinions(Closes(ctx.bars), L, period, oversold, overbought))
    {
      assert bars[..i + 1] == bars[..i] + [bars[i]];
      var signal := OnBar(ctx, strategy, bars[i]);
      signals := signals + [signal];
    }
    assert bars[..|bars|] == bars;
    TradesAlternate(Rsi.Opinions(Closes(bars), L, period, oversold, overbought));
    forall k | 0 <= k < |bars| ensures Rsi.TradesOnThresholds(signals[k], Closes(bars), L, period, oversold, overbought, k) {
      Rsi.SignalsOnThresholds(Closes(bars), L, period, oversold, overbought, k);
    }
  }

  method OnSmaBar(ctx: BarsContext, strategy: Sma.SmaStrategy, b: Bar) returns (signal: Signal)
    requires ctx.Valid() && ctx.custom == map[] && 1 <= strategy.shortPeriod < strategy.longPeriod
    requires strategy.Follows(Closes(ctx.bars), ctx.maxLookback)
    modifies ctx, ctx.Core(), strategy`lastSignal
    ensures ctx.Valid() && ctx.bars == old(ctx.bars) + [b] && ctx.custom == map[]
    ensures strategy.Follows(Closes(ctx.bars), ctx.maxLookback)
    ensures SignalsOf(Sma.Crossovers(Closes(ctx.bars), ctx.maxLookback, strategy.shortPeriod, strategy.longPeriod))
         == SignalsOf(Sma.Crossovers(Closes(old(ctx.bars)), ctx.maxLookback, strategy.shortPeriod, strategy.longPeriod)) + [signal]
  {
    hide Column, Retained, OpinionsOver, LongAfter, SignalsOf, Available, BarsContext.Aligned, Sma.Crossover;
    ClosesPrefix(ctx.bars, b);
    SignalsGrow(Closes(ctx.bars), b.close, Sma.CrossoverOf(ctx.maxLookback, strategy.shortPeriod, strategy.longPeriod));
    ctx.OnBarUpdate(b);
    signal := strategy.OnBarData(ctx);
  }

  lemma NoSmaBars(L: int, shortPeriod: int, longPeriod: int)
    requires 1 <= shortPeriod < longPeriod
    ensures var os := Sma.Crossovers(Closes([]), L, shortPeriod, longPeriod);
      Closes([]) == [] && SignalsOf(os) == [] && !LongAfter(os)
  {}

  /** Over a whole run the crossover strategy emits the signals of its crossovers. */
  method RunSma(bars: seq<Bar>, L: int, shortPeriod: int, longPeriod: int) returns (signals: seq<Signal>)
    requires 1 <= shortPeriod < longPeriod
    ensures signals == SignalsOf(Sma.Crossovers(Closes(bars), L, shortPeriod, longPeriod))
    ensures Alternating(Trades(signals))
  {
    hide Column, Retained, OpinionsOver, LongAfter, SignalsOf, Available, BarsContext.Aligned, BarsContext.Apart, Sma.Crossover;
    NoSmaBars(L, shortPeriod, longPeriod);
    var ctx := new BarsContext("", L);
    var strategy := new Sma.SmaStrategy();
    var ok := strategy.Initialize(Given(shortPeriod), Given(longPeriod));
    signals := [];
    for i := 0 to |bars|
      invariant fresh(ctx) && fresh(strategy) && fresh(ctx.Core())
      invariant ctx.Valid() && ctx.bars == bars[..i] && ctx.maxLookback == L && ctx.custom == map[]
      invariant strategy.shortPeriod == shortPeriod && strategy.longPeriod == longPeriod
      invariant strategy.Follows(Closes(ctx.bars), L)
      invariant signals == SignalsOf(Sma.Crossovers(Closes(ctx.bars), L, shortPeriod, longPeriod))
    {
      assert bars[..i + 1] == bars[..i] + [bars[i]];
      var signal := OnSmaBar(ctx, strategy, bars[i]);
      signals := signals + [signal];
    }
    assert bars[..|bars|] == bars;
    TradesAlternate(Sma.Crossovers(Closes(bars), L, shortPeriod, longPeriod));
  }

  method OnTickBar(ctx: BarsContext, strategy: TickBars.TickBarStrategy, b: Bar) returns (signal: Signal)
    requires ctx.Valid() && ctx.custom == map[] && strategy.config.Accepted() && strategy.Follows(ctx.bars, ctx.maxLookback)
    modifies ctx, ctx.Core(), strategy
    ensures ctx.Valid() && ctx.bars == old(ctx.bars) + [b] && ctx.custom == map[] && strategy.config == old(strategy.config)
    ensures strategy.Follows(ctx.bars, ctx.maxLookback)
    ensures |ctx.bars| > 0 && signal == SignalsOf(TickBars.Views(ctx.bars, strategy.config, ctx.maxLookback))[|ctx.bars| - 1]
  {
    hide *;
    TakeTickBar(ctx, strategy, b);
    NotACoreSeries(ctx, strategy);
    signal := strategy.OnBarData(ctx);
  }

  lemma NotACoreSeries(ctx: BarsContext, strategy: TickBars.TickBarStrategy)
    ensures forall o :: o in ctx.Core() ==> allocated(o) && o != strategy
  {}

  /** The strategy is not part of the context. */
  method TakeTickBar(ctx: BarsContext, strategy: TickBars.TickBarStrategy, b: Bar)
    requires ctx.Valid() && ctx.custom == map[] && strategy.Follows(ctx.bars, ctx.maxLookback)
    modifies ctx`currentBar, ctx`symbol, ctx`bars, ctx.Core()
    ensures ctx.Valid() && ctx.bars == old(ctx.bars) + [b] && ctx.custom == map[]
    ensures ctx.bars != [] && ctx.bars[..|ctx.bars| - 1] == old(ctx.bars)
    ensures strategy.Follows(ctx.bars[..|ctx.bars| - 1], ctx.maxLookback) && strategy.config == old(strategy.config)
  {
    assert (strategy as object) !in ctx.Core();
    hide *;
    ghost var bars := ctx.bars;
    ctx.OnBarUpdate(b);
    assert ctx.bars[..|ctx.bars| - 1] == bars;
  }

  lemma TickSignalsGrow(bars: seq<Bar>, b: Bar, c: TickBars.Config, L: int)
    ensures SignalsOf(TickBars.Views(bars + [b], c, L))
         == SignalsOf(TickBars.Views(bars, c, L)) + [SignalsOf(TickBars.Views(bars + [b], c, L))[|bars|]]
  {
    SignalsGrow(bars, b, TickBars.ViewOf(c, L));
  }

  lemma NoTickBars(c: TickBars.Config, L: int)
    ensures SignalsOf(TickBars.Views([], c, L)) == [] && !LongAfter(TickBars.Views([], c, L))
    ensures TickBars.Ema(TickBars.Folded([])) == None
  {}

  /** Over a whole run the tick bar strategy emits the signals of its views. */
  method RunTickBars(bars: seq<Bar>, L: int, c: TickBars.Config) returns (signals: seq<Signal>)
    requires c.Accepted()
    ensures signals == SignalsOf(TickBars.Views(bars, c, L))
    ensures Alternating(Trades(signals))
  {
    hide Column, Retained, OpinionsOver, LongAfter, SignalsOf, Available, BarsContext.Aligned, BarsContext.Apart, TickBars.View, TickBars.Ema, TickBars.Folded;
    NoTickBars(c, L);
    var ctx := new BarsContext("", L);
    var strategy := new TickBars.TickBarStrategy();
    var ok := strategy.Initialize(Absent, Given(c.lookbackBars), Given(c.momentumThreshold), Given(c.volumeMultiplier));
    signals := [];
    for i := 0 to |bars|
      invariant fresh(ctx) && fresh(strategy) && fresh(ctx.Core())
      invariant ctx.Valid() && ctx.bars == bars[..i] && ctx.maxLookback == L && ctx.custom == map[]
      invariant strategy.config == c && strategy.Follows(ctx.bars, L)
      invariant signals == SignalsOf(TickBars.Views(ctx.bars, c, L))
    {
      assert bars[..i + 1] == bars[..i] + [bars[i]];
      TickSignalsGrow(bars[..i], bars[i], c, L);
      var signal := OnTickBar(ctx, strategy, bars[i]);
      signals := signals + [signal];
    }
    assert bars[..|bars|] == bars;
    TradesAlternate(TickBars.Views(bars, c, L));
  }
}
