/** The tick bar strategy: momentum within a bar against the bar's volume and an exponential
    average of volumes. */
module TickBars {
  import opened Arithmetic
  import opened Options
  import opened SeriesData
  import opened Bars
  import opened Signals

  datatype Config = Config(lookbackBars: int, momentumThreshold: real, volumeMultiplier: real)
  {
    /** What initialization demands. */
    predicate Accepted() { lookbackBars >= 2 && momentumThreshold > 0.0 && volumeMultiplier > 0.0 }
  }

  // ---- The volume average -------------------------------------------------------------------------------

  /** The volumes that are folded in: bars opening at zero are passed over. */
  function Folded(bars: seq<Bar>): seq<real> {
    if bars == [] then []
    else Folded(bars[..|bars| - 1])
         + if bars[|bars| - 1].open == 0.0 then [] else [bars[|bars| - 1].volume]
  }

  /** The average: the first volume, then a fifth of each new one. */
  function Ema(vs: seq<real>): Option<real> {
    if vs == [] then None
    else match Ema(vs[..|vs| - 1])
      case None => Some(vs[|vs| - 1])
      case Some(avg) => Some(Blend(vs[|vs| - 1], avg))
  }

  function Blend(volume: real, avg: real): real { 0.2 * volume + (1.0 - 0.2) * avg }

  lemma FoldStep(bars: seq<Bar>)
    requires bars != []
    ensures var before, b := Folded(bars[..|bars| - 1]), bars[|bars| - 1];
      Ema(Folded(bars)) == if b.open == 0.0 then Ema(before)
                           else if Ema(before) == None then Some(b.volume) else Some(Blend(b.volume, Ema(before).value))
  {
    assert Folded(bars[..|bars| - 1]) + [] == Folded(bars[..|bars| - 1]);
  }

  /** The average never leaves any interval that holds the volumes folded in. */
  lemma {:induction false} EmaStaysWithin(vs: seq<real>, a: real, b: real)
    requires vs != [] && forall i :: 0 <= i < |vs| ==> a <= vs[i] <= b
    ensures Ema(vs).Some? && a <= Ema(vs).value <= b
  {
    if |vs| > 1 {
      EmaStaysWithin(vs[..|vs| - 1], a, b);
    }
  }

  /** In particular it lies between the lowest and the highest of them. */
  lemma EmaBetweenExtremes(vs: seq<real>)
    requires vs != []
    ensures Ema(vs).Some? && MinAgo(vs, |vs|) <= Ema(vs).value <= MaxAgo(vs, |vs|)
  {
    var hi, lo := ExtremesAreAttained(vs, |vs|);
    forall i | 0 <= i < |vs| ensures MinAgo(vs, |vs|) <= vs[i] <= MaxAgo(vs, |vs|) {
      assert Ago(vs, |vs| - 1 - i) == Some(vs[i]);
    }
    EmaStaysWithin(vs, MinAgo(vs, |vs|), MaxAgo(vs, |vs|));
  }

  // ---- What a bar makes the strategy think -----------------------------------------------------------------

  /** The move within the bar relative to its open. */
  function Momentum(open: real, close: real): real
    requires open != 0.0
  {
    (close - open) / open
  }

  predicate AtLeastTimes(volume: real, avg: real, multiplier: real) { volume >= avg * multiplier }

  predicate HighVolume(bars: seq<Bar>, c: Config) {
    && bars != [] && Ema(Folded(bars)).Some?
    && AtLeastTimes(bars[|bars| - 1].volume, Ema(Folded(bars)).value, c.volumeMultiplier)
  }

  /** Momentum is relative: with open and close scaled alike it is the same. */
  lemma MomentumIsRelative(open: real, close: real, f: real)
    requires open != 0.0 && f != 0.0
    ensures Momentum(open, close) * open == close - open
    ensures open * f != 0.0 && Momentum(open * f, close * f) == Momentum(open, close)
  {
    var m := Momentum(open, close);
    assert m * open == close - open;
    SameRatio(close - open, open, f, m);
    assert close * f - open * f == (close - open) * f;
  }

  lemma SameRatio(x: real, y: real, f: real, m: real)
    requires y != 0.0 && f != 0.0 && m * y == x
    ensures y * f != 0.0 && (x * f) / (y * f) == m
  {
    assert m * (y * f) == x * f;
  }

  /** The average: the first volume; then four fifths of it and a fifth of each new one. */
  lemma EmaMeans(vs: seq<real>, v: real)
    ensures vs == [] ==> Ema(vs + [v]) == Some(v)
    ensures vs != [] ==> Ema(vs).Some? && Ema(vs + [v]).Some? && 5.0 * Ema(vs + [v]).value == v + 4.0 * Ema(vs).value
  {
    assert (vs + [v])[..|vs|] == vs;
    if vs != [] { EmaBetweenExtremes(vs); }
  }

  /** The newest bar counts: it did not open at zero, and enough bars are held. */
  predicate Counts(bars: seq<Bar>, c: Config, L: int) {
    bars != [] && bars[|bars| - 1].open != 0.0 && Available(|bars|, L) >= c.lookbackBars
  }

  /** It rose by more than the threshold, on the volume asked for. */
  predicate Rose(bars: seq<Bar>, c: Config, L: int) {
    Counts(bars, c, L) &&
    var b, avg := bars[|bars| - 1], Ema(Folded(bars));
    (b.close - b.open) / b.open > c.momentumThreshold && avg.Some? && b.volume >= avg.value * c.volumeMultiplier
  }

  /** It fell by more than half the threshold. */
  predicate Fell(bars: seq<Bar>, c: Config, L: int) {
    Counts(bars, c, L) &&
    var b := bars[|bars| - 1];
    (b.close - b.open) / b.open < -(c.momentumThreshold / 2.0)
  }

  lemma ViewMeans(bars: seq<Bar>, c: Config, L: int)
    requires c.Accepted()
    ensures View(bars, c, L) == Up <==> Rose(bars, c, L)
    ensures View(bars, c, L) == Down <==> Fell(bars, c, L)
  {
    hide Ema, Folded;
  }

  /** Up needs strong momentum and high volume. Down needs half the threshold and no volume,
      because the third branch of the strategy covers the second. */
  function View(bars: seq<Bar>, c: Config, L: int): Opinion {
    if bars == [] || bars[|bars| - 1].open == 0.0 || Available(|bars|, L) < c.lookbackBars then Neutral
    else
      var m := Momentum(bars[|bars| - 1].open, bars[|bars| - 1].close);
      if m > c.momentumThreshold && HighVolume(bars, c) then Up
      else if m < -(c.momentumThreshold / 2.0) then Down
      else Neutral
  }

  function ViewOf(c: Config, L: int): seq<Bar> -> Opinion { (bars: seq<Bar>) => View(bars, c, L) }

  function Views(bars: seq<Bar>, c: Config, L: int): (os: seq<Opinion>)
    ensures |os| == |bars|
  {
    OpinionsOver(bars, ViewOf(c, L))
  }

  predicate RoseAt(bars: seq<Bar>, c: Config, L: int, i: nat) { i < |bars| && Rose(bars[..i + 1], c, L) }
  predicate FellAt(bars: seq<Bar>, c: Config, L: int, i: nat) { i < |bars| && Fell(bars[..i + 1], c, L) }

  /** Some bar rose so, and none after it rose or fell so. */
  ghost predicate Holding(bars: seq<Bar>, c: Config, L: int) {
    exists i: nat :: RoseAt(bars, c, L, i) &&
      (forall j: nat :: i < j < |bars| ==> !RoseAt(bars, c, L, j) && !FellAt(bars, c, L, j))
  }

  lemma ViewsMean(bars: seq<Bar>, c: Config, L: int)
    requires c.Accepted()
    ensures forall i: nat :: i < |bars| ==> (Views(bars, c, L)[i] == Up <==> RoseAt(bars, c, L, i))
    ensures forall i: nat :: i < |bars| ==> (Views(bars, c, L)[i] == Down <==> FellAt(bars, c, L, i))
  {
    hide View, Rose, Fell;
    forall i: nat | i < |bars|
      ensures Views(bars, c, L)[i] == Up <==> RoseAt(bars, c, L, i)
      ensures Views(bars, c, L)[i] == Down <==> FellAt(bars, c, L, i)
    {
      ViewMeans(bars[..i + 1], c, L);
    }
  }

  lemma LongIffLastRose(bars: seq<Bar>, c: Config, L: int)
    requires c.Accepted()
    ensures LongAfter(Views(bars, c, L)) <==> Holding(bars, c, L)
  {
    var os := Views(bars, c, L);
    ViewsMean(bars, c, L);
    LongIffLastOpinionIsUp(os);
    assert forall i: nat :: RoseAt(bars, c, L, i) ==> i < |bars|;
    hide RoseAt, FellAt, LongAfter, Views;
    if i: nat :| LastOpinion(os, i) && os[i] == Up {
      assert RoseAt(bars, c, L, i);
    }
    if i: nat :| (RoseAt(bars, c, L, i) &&
      (forall j: nat :: i < j < |bars| ==> !RoseAt(bars, c, L, j) && !FellAt(bars, c, L, j))) {
      assert LastOpinion(os, i);
    }
  }

  // ---- Which volume multipliers ever trade -------------------------------------------------------------------

  lemma {:induction false} FoldedSigns(bars: seq<Bar>)
    requires forall b :: b in bars ==> b.volume > 0.0
    ensures forall i :: 0 <= i < |Folded(bars)| ==> Folded(bars)[i] > 0.0
  {
    if bars != [] {
      FoldedSigns(bars[..|bars| - 1]);
      assert bars[|bars| - 1] in bars;
    }
  }

  lemma {:induction false} AboveAFifth(vs: seq<real>)
    requires vs != [] && forall i :: 0 <= i < |vs| ==> vs[i] > 0.0
    ensures Ema(vs).Some? && Ema(vs).value > 0.2 * vs[|vs| - 1] && Ema(vs).value > 0.0
  {
    if |vs| > 1 {
      AboveAFifth(vs[..|vs| - 1]);
    }
  }

  /** The average is above a fifth of the newest volume, so with a multiplier of five or more
      no bar has high volume and the strategy never trades. */
  lemma NoTradesFromFive(bars: seq<Bar>, c: Config, L: int)
    requires c.Accepted() && c.volumeMultiplier >= 5.0
    requires forall b :: b in bars ==> b.volume > 0.0
    ensures !LongAfter(Views(bars, c, L)) && Trades(SignalsOf(Views(bars, c, L))) == []
  {
    var os := Views(bars, c, L);
    forall i | 0 <= i < |os| ensures os[i] != Up {
      assert os[i] == View(bars[..i + 1], c, L);
      if bars[i].open != 0.0 {
        NoHighVolume(bars[..i + 1], c);
      }
    }
    NeverUp(os);
  }

  lemma NoHighVolume(bars: seq<Bar>, c: Config)
    requires c.volumeMultiplier >= 5.0 && bars != [] && bars[|bars| - 1].open != 0.0
    requires forall b :: b in bars ==> b.volume > 0.0
    ensures !HighVolume(bars, c)
  {
    hide Ema, Momentum, AtLeastTimes;
    FoldedSigns(bars);
    var vs := Folded(bars);
    assert vs[|vs| - 1] == bars[|bars| - 1].volume;
    AboveAFifth(vs);
    NotTimesFive(vs[|vs| - 1], Ema(vs).value, c.volumeMultiplier);
  }

  lemma NotTimesFive(volume: real, avg: real, multiplier: real)
    requires avg > 0.2 * volume && avg > 0.0 && multiplier >= 5.0
    ensures !AtLeastTimes(volume, avg, multiplier)
  {
    assert avg * (multiplier - 5.0) >= 0.0;
  }

  lemma {:induction false} NeverUp(os: seq<Opinion>)
    requires forall i :: 0 <= i < |os| ==> os[i] != Up
    ensures !LongAfter(os) && Trades(SignalsOf(os)) == []
  {
    if os != [] {
      NeverUp(os[..|os| - 1]);
      assert SignalsOf(os)[..|os| - 1] == SignalsOf(os[..|os| - 1]);
    }
  }

  function Quiet(volume: real): Bar { Bar(1.0, 1.0, 1.0, 1.0, volume, "", 0, None) }

  ghost predicate AllQuiet(bars: seq<Bar>, volume: real) { forall b :: b in bars ==> b == Quiet(volume) }
  ghost predicate HaveVolume(bars: seq<Bar>) { forall b :: b in bars ==> b.volume > 0.0 }

  /** Every smaller multiplier trades: on enough quiet bars of a small volume follows a rising
      bar of volume one. */
  lemma SmallerMultipliersTrade(c: Config, L: int) returns (bars: seq<Bar>)
    requires c.Accepted() && c.volumeMultiplier < 5.0 && (L <= 0 || L >= c.lookbackBars)
    ensures HaveVolume(bars)
    ensures Trades(SignalsOf(Views(bars, c, L))) == [Buy]
  {
    assert c.lookbackBars >= 2 && c.volumeMultiplier > 0.0;
    hide *;
    var n, small := c.lookbackBars - 1, SmallVolume(c.volumeMultiplier);
    SmallEnough(c.volumeMultiplier, small);
    var quiet := QuietBars(n, small);
    bars := quiet + [Loud(c)];
    Volumes(c, quiet, small);
    LoudIsUp(c, L, quiet, small);
    NotReady(bars, c, L, n);
    OnlyTheLastIsUp(Views(bars, c, L));
  }

  lemma QuietBars(n: nat, small: real) returns (quiet: seq<Bar>)
    ensures |quiet| == n && AllQuiet(quiet, small)
  {
    quiet := seq(n, _ => Quiet(small));
  }

  lemma Volumes(c: Config, quiet: seq<Bar>, small: real)
    requires small > 0.0 && AllQuiet(quiet, small)
    ensures HaveVolume(quiet + [Loud(c)])
  {}

  function Loud(c: Config): Bar { Quiet(1.0).(close := 1.0 + 2.0 * c.momentumThreshold) }

  lemma LoudIsUp(c: Config, L: int, quiet: seq<Bar>, small: real)
    requires c.Accepted() && (L <= 0 || L >= c.lookbackBars) && |quiet| == c.lookbackBars - 1
    requires AllQuiet(quiet, small) && AtLeastTimes(1.0, Blend(1.0, small), c.volumeMultiplier)
    ensures View(quiet + [Loud(c)], c, L) == Up
  {
    hide AtLeastTimes, Momentum, Blend, Ema, Folded, AllQuiet;
    var bars := quiet + [Loud(c)];
    QuietAverage(quiet, small);
    assert bars[..|quiet|] == quiet;
    FoldStep(bars);
    LoudRises(c);
  }

  lemma LoudRises(c: Config)
    ensures Loud(c).open == 1.0 && Loud(c).volume == 1.0 && Momentum(1.0, Loud(c).close) == 2.0 * c.momentumThreshold
  {}

  lemma NotReady(bars: seq<Bar>, c: Config, L: int, n: nat)
    requires |bars| == n + 1 == c.lookbackBars && View(bars, c, L) == Up
    ensures OnlyLastUp(Views(bars, c, L))
  {
    hide View;
    assert bars[..n + 1] == bars;
    forall i | 0 <= i < n ensures Views(bars, c, L)[i] == Neutral {
      FewBars(bars[..i + 1], c, L);
    }
  }

  lemma FewBars(bars: seq<Bar>, c: Config, L: int)
    requires |bars| < c.lookbackBars
    ensures View(bars, c, L) == Neutral
  {}

  ghost predicate OnlyLastUp(os: seq<Opinion>) {
    os != [] && os[|os| - 1] == Up && forall i :: 0 <= i < |os| - 1 ==> os[i] == Neutral
  }

  lemma OnlyTheLastIsUp(os: seq<Opinion>)
    requires OnlyLastUp(os)
    ensures Trades(SignalsOf(os)) == [Buy]
  {
    var n := |os| - 1;
    NeverUp(os[..n]);
    assert SignalsOf(os)[..n] == SignalsOf(os[..n]);
  }

  /** The volume whose average with one, times m, is one. */
  function SmallVolume(m: real): real
    requires m > 0.0
  {
    (1.0 - 0.2 * m) / (0.8 * m)
  }

  lemma SmallEnough(m: real, v: real)
    requires 0.0 < m < 5.0 && v == SmallVolume(m)
    ensures v > 0.0 && AtLeastTimes(1.0, Blend(1.0, v), m)
  {
    ScaleOrder(v, 0.0, 0.8 * m);
    assert v * (0.8 * m) == 1.0 - 0.2 * m;
    assert (0.2 + 0.8 * v) * m == 0.2 * m + v * (0.8 * m);
  }

  lemma {:induction false} QuietAverage(bars: seq<Bar>, v: real)
    requires bars != [] && AllQuiet(bars, v)
    ensures Folded(bars) != [] && Ema(Folded(bars)) == Some(v)
  {
    var n := |bars| - 1;
    assert bars[n] in bars;
    if n > 0 {
      forall b | b in bars[..n] ensures b in bars {}
      QuietAverage(bars[..n], v);
      assert Folded(bars)[..|Folded(bars)| - 1] == Folded(bars[..n]);
    } else {
      assert Folded(bars) == [v];
    }
  }

  // ---- The strategy ---------------------------------------------------------------------------------------

  /** Initialization ends well, with an error message, or with an exception: a malformed decimal
      does not raise the error that is caught. */
  datatype Init = Accepts | Refuses | Raises

  class TickBarStrategy {
    var config: Config
    var expectedTickCount: int
    var hasPosition: bool
    var entryPrice: Option<real>
    var totalBars: nat
    var avgVolume: Option<real>

    constructor ()
      ensures config == Config(20, 0.002, 1.5) && expectedTickCount == 100
      ensures !hasPosition && entryPrice == None && totalBars == 0 && avgVolume == None
    {
      config, expectedTickCount := Config(20, 0.002, 1.5), 100;
      hasPosition, entryPrice, totalBars, avgVolume := false, None, 0, None;
    }

    /** The parameters are read in turn up to the first that is refused, which is kept all the
        same; a malformed one is not. */
    method Initialize(ticks: Param<int>, lookback: Param<int>, threshold: Param<real>, multiplier: Param<real>) returns (r: Init)
      modifies this`config, this`expectedTickCount
      ensures var ticksRead := !ticks.Malformed? && (ticks.Given? ==> ticks.value >= 10);
        var lookbackRead := ticksRead && !lookback.Malformed? && (lookback.Given? ==> lookback.value >= 2);
        var thresholdRead := lookbackRead && !threshold.Malformed? && (threshold.Given? ==> threshold.value > 0.0);
        var multiplierRead := thresholdRead && !multiplier.Malformed? && (multiplier.Given? ==> multiplier.value > 0.0);
        && expectedTickCount == (if ticks.Given? then ticks.value else old(expectedTickCount))
        && config.lookbackBars == (if ticksRead && lookback.Given? then lookback.value else old(config.lookbackBars))
        && config.momentumThreshold == (if lookbackRead && threshold.Given? then threshold.value else old(config.momentumThreshold))
        && config.volumeMultiplier == (if thresholdRead && multiplier.Given? then multiplier.value else old(config.volumeMultiplier))
        && (r == Accepts <==> multiplierRead)
        && (r == Raises <==> (lookbackRead && threshold.Malformed?) || (thresholdRead && multiplier.Malformed?))
      ensures r == Accepts && old(config.Accepted()) ==> config.Accepted()
    {
      if ticks.Malformed? {
        return Refuses;
      }
      if ticks.Given? {
        expectedTickCount := ticks.value;
        if expectedTickCount < 10 {
          return Refuses;
        }
      }
      if lookback.Malformed? {
        return Refuses;
      }
      if lookback.Given? {
        config := config.(lookbackBars := lookback.value);
        if config.lookbackBars < 2 {
          return Refuses;
        }
      }
      if threshold.Malformed? {
        return Raises;
      }
      if threshold.Given? {
        config := config.(momentumThreshold := threshold.value);
        if config.momentumThreshold <= 0.0 {
          return Refuses;
        }
      }
      if multiplier.Malformed? {
        return Raises;
      }
      if multiplier.Given? {
        config := config.(volumeMultiplier := multiplier.value);
        if config.volumeMultiplier <= 0.0 {
          return Refuses;
        }
      }
      return Accepts;
    }

    /** The fields after these bars. An entry price is held exactly with a position. */
    ghost predicate Follows(bars: seq<Bar>, L: int)
      reads this
    {
      && hasPosition == LongAfter(Views(bars, config, L))
      && totalBars == |bars| && avgVolume == Ema(Folded(bars))
      && (entryPrice.Some? <==> hasPosition)
    }

    /** The newest volume is folded in. */
    method Average(volume: real)
      modifies this`avgVolume
      ensures avgVolume == Some(if old(avgVolume) == None then volume else Blend(volume, old(avgVolume.value)))
    {
      if avgVolume == None {
        avgVolume := Some(volume);
      } else {
        avgVolume := Some(Blend(volume, avgVolume.value));
      }
    }

    /** The three trading branches. */
    method Trade(momentum: real, high: bool, closePrice: real) returns (signal: Signal)
      requires config.Accepted()
      modifies this`hasPosition, this`entryPrice
      ensures signal == SignalFor(old(hasPosition),
        if momentum > config.momentumThreshold && high then Up
        else if momentum < -(config.momentumThreshold / 2.0) then Down else Neutral)
      ensures hasPosition == (signal == Buy || (signal == Hold && old(hasPosition)))
      ensures entryPrice == match signal
        case Buy => Some(closePrice)
        case Sell => None
        case Hold => old(entryPrice)
    {
      if !hasPosition && momentum > config.momentumThreshold && high {
        hasPosition := true;
        entryPrice := Some(closePrice);
        return Buy;
      }
      if hasPosition && momentum < -config.momentumThreshold && high {
        hasPosition := false;
        entryPrice := None;
        return Sell;
      }
      if hasPosition && momentum < 0.0 && -momentum > config.momentumThreshold / 2.0 {
        hasPosition := false;
        entryPrice := None;
        return Sell;
      }
      return Hold;
    }

    /** Called once for each bar. */
    method OnBarData(ctx: BarsContext) returns (signal: Signal)
      requires ctx.Valid() && ctx.bars != [] && config.Accepted()
      requires Follows(ctx.bars[..|ctx.bars| - 1], ctx.maxLookback)
      modifies this`hasPosition, this`entryPrice, this`totalBars, this`avgVolume
      ensures Follows(ctx.bars, ctx.maxLookback)
      ensures signal == SignalsOf(Views(ctx.bars, config, ctx.maxLookback))[|ctx.bars| - 1]
      ensures signal == Buy <==> !old(hasPosition) && Rose(ctx.bars, config, ctx.maxLookback)
      ensures signal == Sell <==> old(hasPosition) && Fell(ctx.bars, config, ctx.maxLookback)
      ensures signal == Buy ==> entryPrice == Some(ctx.bars[|ctx.bars| - 1].close)
      ensures signal == Hold ==> entryPrice == old(entryPrice)
    {
      hide Momentum, Blend, AtLeastTimes, LongAfter, SignalsOf, OpinionsOver, Retained, Folded, Ema;
      OpinionsOverLast(ctx.bars, ViewOf(config, ctx.maxLookback));
      ViewMeans(ctx.bars, config, ctx.maxLookback);
      hide Rose, Fell;
      FoldStep(ctx.bars);
      totalBars := totalBars + 1;
      if ctx.open.Count() == 0 {
        return Hold;
      }
      var openPrice := ctx.open.Get(0).value;
      var closePrice := ctx.close.Get(0).value;
      var volume := ctx.volume.Get(0).value;
      if openPrice == 0.0 {
        return Hold;
      }
      Average(volume);
      if !ctx.IsReadyFor(config.lookbackBars) {
        return Hold;
      }
      var high := AtLeastTimes(volume, avgVolume.value, config.volumeMultiplier);
      signal := Trade(Momentum(openPrice, closePrice), high, closePrice);
    }
  }
}
