/** The RSI strategy: rises and falls of the close tracked in two custom series beside the
    close, and a position that follows the oversold and overbought thresholds. */
module Rsi {
  import opened Arithmetic
  import opened Options
  import opened SeriesData
  import opened Bars
  import opened Signals

  function Plus(x: real): real { if x > 0.0 then x else 0.0 }

  /** The change of the newest close, zero when the previous close is not held. */
  function LastChange(closes: seq<real>, L: int): real {
    if Available(|closes|, L) < 2 then 0.0 else closes[|closes| - 1] - closes[|closes| - 2]
  }

  /** Everything pushed to "gains" while the closes came in; dually "losses". */
  function Rises(closes: seq<real>, L: int): (r: seq<real>)
    ensures |r| == |closes|
  {
    if closes == [] then [] else Rises(closes[..|closes| - 1], L) + [Plus(LastChange(closes, L))]
  }

  function Falls(closes: seq<real>, L: int): (r: seq<real>)
    ensures |r| == |closes|
  {
    if closes == [] then [] else Falls(closes[..|closes| - 1], L) + [Plus(-LastChange(closes, L))]
  }

  /** The RSI of this bar; None when the strategy holds without one. */
  function RsiAt(closes: seq<real>, L: int, period: int): Option<real> {
    if Available(|closes|, L) < 2 || Available(|closes|, L) < period + 1 then None
    else
      var avgGain, avgLoss := Sma(Rises(closes, L), period), Sma(Falls(closes, L), period);
      if avgGain == None || avgLoss == None then None else Index(avgGain.value, avgLoss.value)
  }

  /** The formula on the average gain and loss; None where it would divide by zero. */
  function Index(gain: real, loss: real): Option<real> {
    if loss == 0.0 || 1.0 + gain / loss == 0.0 then None
    else Some(100.0 - 100.0 / (1.0 + gain / loss))
  }

  function OpinionOf(rsi: Option<real>, oversold: real, overbought: real): Opinion {
    match rsi
    case None => Neutral
    case Some(r) => if r < oversold then Up else if r > overbought then Down else Neutral
  }

  /** What the newest of these closes makes the strategy think. */
  function RsiOpinion(L: int, period: int, oversold: real, overbought: real): seq<real> -> Opinion {
    (closes: seq<real>) => OpinionOf(RsiAt(closes, L, period), oversold, overbought)
  }

  /** The opinion of each bar. */
  function Opinions(closes: seq<real>, L: int, period: int, oversold: real, overbought: real): (os: seq<Opinion>)
    ensures |os| == |closes|
  {
    OpinionsOver(closes, RsiOpinion(L, period, oversold, overbought))
  }

  function Front(s: seq<real>): seq<real>
    requires s != []
  {
    s[..|s| - 1]
  }

  lemma NewestChange(bars: seq<Bar>, L: int)
    ensures bars != [] ==> Closes(bars) != []
    ensures LastChange(Closes(bars), L) == if Available(|bars|, L) < 2 then 0.0
                                           else bars[|bars| - 1].close - bars[|bars| - 2].close
  {}

  function ValueOr(x: Option<real>, other: real): real { if x.Some? then x.value else other }

  lemma ChangeIsLastChange(ctx: BarsContext)
    requires ctx.Valid() && ctx.bars != []
    ensures Closes(ctx.bars) != [] && ValueOr(ctx.Change(), 0.0) == LastChange(Closes(ctx.bars), ctx.maxLookback)
    ensures ctx.Change() == None <==> Available(|ctx.bars|, ctx.maxLookback) < 2
  {
    NewestChange(ctx.bars, ctx.maxLookback);
    hide LastChange, Closes, Available, ctx.Aligned, ctx.Apart;
  }

  lemma ChangesStep(closes: seq<real>, L: int)
    requires closes != []
    ensures Rises(closes, L) == Rises(Front(closes), L) + [Plus(LastChange(closes, L))]
    ensures Falls(closes, L) == Falls(Front(closes), L) + [Plus(-LastChange(closes, L))]
  {}

  lemma OpinionsStep(closes: seq<real>, L: int, period: int, oversold: real, overbought: real)
    requires closes != []
    ensures var before, os, o := Opinions(Front(closes), L, period, oversold, overbought),
                                 Opinions(closes, L, period, oversold, overbought),
                                 OpinionOf(RsiAt(closes, L, period), oversold, overbought);
      && |os| == |closes|
      && SignalsOf(os)[|os| - 1] == SignalFor(LongAfter(before), o)
      && (LongAfter(os) <==> SignalFor(LongAfter(before), o) == Buy || (SignalFor(LongAfter(before), o) == Hold && LongAfter(before)))
    ensures Available(|closes|, L) < 2 ==> RsiAt(closes, L, period) == None
  {
    OpinionsOverLast(closes, RsiOpinion(L, period, oversold, overbought));
  }

  lemma NoRsiHolds(long: bool, oversold: real, overbought: real)
    ensures SignalFor(long, OpinionOf(None, oversold, overbought)) == Hold
  {}

  // ---- The index in terms of prices --------------------------------------------------------------------

  lemma {:induction false} ChangesAt(closes: seq<real>, L: int, i: nat)
    requires L != 1 && 1 <= i < |closes|
    ensures Rises(closes, L)[i] == Plus(closes[i] - closes[i - 1])
    ensures Falls(closes, L)[i] == Plus(closes[i - 1] - closes[i])
  {
    if i < |closes| - 1 {
      ChangesAt(closes[..|closes| - 1], L, i);
    }
  }

  /** Gains less losses over the window telescope to the price change across it. */
  lemma {:induction false} GainsLessLosses(closes: seq<real>, L: int, p: nat)
    requires L != 1 && p < |closes|
    ensures SumAgo(Rises(closes, L), p) - SumAgo(Falls(closes, L), p)
         == closes[|closes| - 1] - closes[|closes| - 1 - p]
  {
    if p > 0 {
      GainsLessLosses(closes, L, p - 1);
      ChangesAt(closes, L, |closes| - p);
    }
  }

  /** Some close within the newest p changes is below the one before it. */
  ghost predicate FallsWithin(closes: seq<real>, p: nat)
    requires p < |closes|
  {
    exists i :: |closes| - p <= i < |closes| && closes[i] < closes[i - 1]
  }

  lemma {:induction false} WindowSigns(closes: seq<real>, L: int, p: nat)
    requires L != 1 && p < |closes|
    ensures SumAgo(Rises(closes, L), p) >= 0.0 && SumAgo(Falls(closes, L), p) >= 0.0
    ensures SumAgo(Falls(closes, L), p) > 0.0 <==> FallsWithin(closes, p)
  {
    if p > 0 {
      WindowSigns(closes, L, p - 1);
      ChangesAt(closes, L, |closes| - p);
      if closes[|closes| - p] < closes[|closes| - p - 1] {
        assert FallsWithin(closes, p);
      }
    }
  }

  /** r is g as a percentage of g and l together. */
  predicate IsShare(r: real, g: real, l: real) { r * (g + l) == 100.0 * g }

  /** The formula is the share of gains in all movement, and there is none without losses. */
  lemma IndexIsAShare(g: real, l: real, p: nat)
    requires g >= 0.0 && l >= 0.0 && p > 0
    ensures Index(Average(g, p), Average(l, p)).Some? <==> l > 0.0
    ensures Index(Average(g, p), Average(l, p)).Some? ==>
      var r := Index(Average(g, p), Average(l, p)).value;
      IsShare(r, g, l) && 0.0 <= r < 100.0 && (r > 50.0 <==> g > l)
  {
    var n := p as real;
    var a, b := g / n, l / n;
    assert a * n == g && b * n == l;
    if l > 0.0 {
      ScaleOrder(b, 0.0, n);
      var rs := a / b;
      assert rs * b == a;
      assert rs * l == g by { assert rs * (b * n) == (rs * b) * n; }
      Share(g, l, rs);
    } else {
      assert b == 0.0;
    }
  }

  lemma NoIndexOnlyWithoutLosses(closes: seq<real>, L: int, p: nat)
    requires p >= 2 && Available(|closes|, L) >= p + 1
    ensures Index(Average(SumAgo(Rises(closes, L), p), p), Average(SumAgo(Falls(closes, L), p), p)) == None
       <==> Average(SumAgo(Falls(closes, L), p), p) == 0.0
  {
    WindowSigns(closes, L, p);
    IndexIsAShare(SumAgo(Rises(closes, L), p), SumAgo(Falls(closes, L), p), p);
  }

  lemma Share(g: real, l: real, rs: real)
    requires g >= 0.0 && l > 0.0 && rs * l == g
    ensures rs >= 0.0
    ensures var rsi := 100.0 - 100.0 / (1.0 + rs);
      rsi * (g + l) == 100.0 * g && 0.0 <= rsi < 100.0 && (rsi > 50.0 <==> g > l)
  {
    ScaleOrder(0.0, rs, l);
    ScaleOrder(rs, 1.0, l);
    var d := 1.0 + rs;
    var q := 100.0 / d;
    assert q * d == 100.0;
    ScaleOrder(q, 0.0, d);
    ScaleOrder(q, 100.0, d);
    ScaleOrder(50.0, q, d);
    ShareOfBoth(g, l, rs, q);
  }

  lemma ShareOfBoth(g: real, l: real, rs: real, q: real)
    requires rs * l == g && q * (1.0 + rs) == 100.0
    ensures (100.0 - q) * (g + l) == 100.0 * g
  {
    assert g + l == (1.0 + rs) * l;
    assert q * (g + l) == (q * (1.0 + rs)) * l;
    assert (100.0 - q) * (g + l) == 100.0 * (g + l) - q * (g + l);
  }

  /** There is an index exactly when period + 1 closes are held and one of the last period
      changes is a fall. It is 100 times gains over gains plus losses, lies in [0, 100), and
      is above 50 exactly when the price rose across the window. */
  lemma RsiFromPrices(closes: seq<real>, L: int, p: nat)
    requires p >= 2
    ensures RsiAt(closes, L, p).Some? <==> Available(|closes|, L) >= p + 1 && FallsWithin(closes, p)
    ensures RsiAt(closes, L, p).Some? ==>
      var r, g, l := RsiAt(closes, L, p).value, SumAgo(Rises(closes, L), p), SumAgo(Falls(closes, L), p);
      && IsShare(r, g, l) && 0.0 <= r < 100.0
      && (r > 50.0 <==> closes[|closes| - 1] > closes[|closes| - 1 - p])
  {
    hide Index, IsShare, Average;
    if Available(|closes|, L) >= p + 1 {
      var g, l := SumAgo(Rises(closes, L), p), SumAgo(Falls(closes, L), p);
      WindowSigns(closes, L, p);
      GainsLessLosses(closes, L, p);
      IndexIsAShare(g, l, p);
    }
  }

  lemma {:induction false} ChangesIgnoreLookback(closes: seq<real>, L: int)
    requires L != 1
    ensures Rises(closes, L) == Rises(closes, 0) && Falls(closes, L) == Falls(closes, 0)
  {
    if closes != [] {
      ChangesIgnoreLookback(closes[..|closes| - 1], L);
    }
  }

  lemma RsiIgnoresLookback(closes: seq<real>, L: int, p: nat)
    requires p >= 2
    ensures L <= 0 || L >= p + 1 ==> RsiAt(closes, L, p) == RsiAt(closes, 0, p)
    ensures 0 < L <= p ==> RsiAt(closes, L, p) == None
  {
    hide Index, Average, Rises, Falls;
    if L <= 0 || L >= p + 1 {
      ChangesIgnoreLookback(closes, L);
    }
  }

  /** Any lookback above the period gives the opinions of an unbounded history; a shorter
      one gives none at all. */
  lemma OpinionsIgnoreLookback(closes: seq<real>, L: int, p: nat, lo: real, hi: real)
    requires p >= 2
    ensures L <= 0 || L >= p + 1 ==> Opinions(closes, L, p, lo, hi) == Opinions(closes, 0, p, lo, hi)
    ensures 0 < L <= p ==> forall o :: o in Opinions(closes, L, p, lo, hi) ==> o == Neutral
  {
    hide RsiAt;
    var os, unbounded := Opinions(closes, L, p, lo, hi), Opinions(closes, 0, p, lo, hi);
    forall i | 0 <= i < |closes|
      ensures L <= 0 || L >= p + 1 ==> os[i] == unbounded[i]
      ensures 0 < L <= p ==> os[i] == Neutral
    {
      RsiIgnoresLookback(closes[..i + 1], L, p);
    }
  }

  /** Bar i has an RSI below lo; dually above hi. */
  predicate Oversold(closes: seq<real>, L: int, p: nat, lo: real, i: nat) {
    i < |closes| && RsiAt(closes[..i + 1], L, p).Some? && RsiAt(closes[..i + 1], L, p).value < lo
  }

  predicate Overbought(closes: seq<real>, L: int, p: nat, hi: real, i: nat) {
    i < |closes| && RsiAt(closes[..i + 1], L, p).Some? && RsiAt(closes[..i + 1], L, p).value > hi
  }

  /** Some bar was oversold, and none after it oversold or overbought. */
  ghost predicate Holding(closes: seq<real>, L: int, p: nat, lo: real, hi: real) {
    exists i: nat :: Oversold(closes, L, p, lo, i) &&
      forall j: nat :: i < j < |closes| ==> !Oversold(closes, L, p, lo, j) && !Overbought(closes, L, p, hi, j)
  }

  /** Bought on the k-th bar when flat and oversold, sold when held and overbought. */
  ghost predicate TradesOnThresholds(signal: Signal, closes: seq<real>, L: int, p: nat, lo: real, hi: real, k: nat)
    requires k < |closes|
  {
    && (signal == Buy <==> !Holding(closes[..k], L, p, lo, hi) && Oversold(closes, L, p, lo, k))
    && (signal == Sell <==> Holding(closes[..k], L, p, lo, hi) && Overbought(closes, L, p, hi, k))
  }

  lemma OpinionsMean(closes: seq<real>, L: int, p: nat, lo: real, hi: real, i: nat)
    requires lo < hi && i < |closes|
    ensures Opinions(closes, L, p, lo, hi)[i] == Up <==> Oversold(closes, L, p, lo, i)
    ensures Opinions(closes, L, p, lo, hi)[i] == Down <==> Overbought(closes, L, p, hi, i)
  {
    hide RsiAt;
  }

  /** The position after a whole run: long exactly when some bar was oversold and none after it
      oversold or overbought. */
  lemma LongIffLastOversold(closes: seq<real>, L: int, p: nat, lo: real, hi: real)
    requires lo < hi
    ensures LongAfter(Opinions(closes, L, p, lo, hi)) <==> Holding(closes, L, p, lo, hi)
  {
    hide Opinions, Oversold, Overbought, LongAfter;
    var os := Opinions(closes, L, p, lo, hi);
    LongIffLastOpinionIsUp(os);
    EachOpinionMeans(closes, L, p, lo, hi);
    if i: nat :| LastOpinion(os, i) && os[i] == Up {
      assert Oversold(closes, L, p, lo, i);
    }
    if i: nat :| Oversold(closes, L, p, lo, i) && forall j: nat :: i < j < |closes| ==>
      !Oversold(closes, L, p, lo, j) && !Overbought(closes, L, p, hi, j) {
      assert LastOpinion(os, i);
    }
  }

  lemma EachOpinionMeans(closes: seq<real>, L: int, p: nat, lo: real, hi: real)
    requires lo < hi
    ensures forall i: nat :: i < |closes| ==> (Opinions(closes, L, p, lo, hi)[i] == Up <==> Oversold(closes, L, p, lo, i))
    ensures forall i: nat :: i < |closes| ==> (Opinions(closes, L, p, lo, hi)[i] == Down <==> Overbought(closes, L, p, hi, i))
    ensures forall i: nat :: Oversold(closes, L, p, lo, i) ==> i < |closes|
  {
    assert forall i: nat :: Oversold(closes, L, p, lo, i) ==> i < |closes|;
    hide Oversold, Overbought, Opinions;
    forall i: nat | i < |closes|
      ensures Opinions(closes, L, p, lo, hi)[i] == Up <==> Oversold(closes, L, p, lo, i)
      ensures Opinions(closes, L, p, lo, hi)[i] == Down <==> Overbought(closes, L, p, hi, i)
    {
      OpinionsMean(closes, L, p, lo, hi, i);
    }
  }

  lemma SignalsOnThresholds(closes: seq<real>, L: int, p: nat, lo: real, hi: real, k: nat)
    requires lo < hi && k < |closes|
    ensures TradesOnThresholds(SignalsOf(Opinions(closes, L, p, lo, hi))[k], closes, L, p, lo, hi, k)
  {
    var os := Opinions(closes, L, p, lo, hi);
    OpinionsOverPrefix(closes, RsiOpinion(L, p, lo, hi), k);
    SignalsMean(os, k);
    OpinionsMean(closes, L, p, lo, hi, k);
    LongIffLastOversold(closes[..k], L, p, lo, hi);
    hide Holding, Oversold, Overbought, LongAfter, SignalsOf;
  }

  /** After the newest bar: the position, and the signal it gave. */
  lemma DecisionsMean(closes: seq<real>, L: int, p: nat, lo: real, hi: real)
    requires closes != [] && lo < hi
    ensures LongAfter(Opinions(closes, L, p, lo, hi)) <==> Holding(closes, L, p, lo, hi)
    ensures TradesOnThresholds(SignalsOf(Opinions(closes, L, p, lo, hi))[|closes| - 1], closes, L, p, lo, hi, |closes| - 1)
  {
    hide *;
    LongIffLastOversold(closes, L, p, lo, hi);
    SignalsOnThresholds(closes, L, p, lo, hi, |closes| - 1);
  }

  // ---- The strategy --------------------------------------------------------------------------------------

  predicate PeriodReads(p: Param<int>) { !p.Malformed? && (p.Given? ==> p.value >= 2) }
  predicate ThresholdReads(x: Param<real>) { !x.Malformed? && (x.Given? ==> 0.0 <= x.value <= 100.0) }

  class RsiStrategy {
    var period: int
    var oversold: real
    var overbought: real
    var hasPosition: bool

    constructor ()
      ensures period == 14 && oversold == 30.0 && overbought == 70.0 && !hasPosition
    {
      period, oversold, overbought, hasPosition := 14, 30.0, 70.0, false;
    }

    /** Accepts exactly a period of at least 2 and thresholds within [0, 100] in order; what
        was read before the parameter that is refused stays. */
    method Initialize(p: Param<int>, lo: Param<real>, hi: Param<real>) returns (ok: bool)
      modifies this
      ensures hasPosition == old(hasPosition)
      ensures ok <==>
        && !p.Malformed? && !lo.Malformed? && !hi.Malformed? && (p.Given? ==> p.value >= 2)
        && (lo.Given? ==> 0.0 <= lo.value <= 100.0) && (hi.Given? ==> 0.0 <= hi.value <= 100.0)
        && (if lo.Given? then lo.value else old(oversold)) < (if hi.Given? then hi.value else old(overbought))
      ensures period == if PeriodReads(p) && p.Given? then p.value else old(period)
      ensures oversold == if PeriodReads(p) && ThresholdReads(lo) && lo.Given? then lo.value else old(oversold)
      ensures overbought ==
        if PeriodReads(p) && ThresholdReads(lo) && ThresholdReads(hi) && hi.Given? then hi.value else old(overbought)
    {
      if p.Malformed? || (p.Given? && p.value < 2) {
        return false;
      }
      if p.Given? {
        period := p.value;
      }
      if lo.Malformed? || (lo.Given? && !(0.0 <= lo.value <= 100.0)) {
        return false;
      }
      if lo.Given? {
        oversold := lo.value;
      }
      if hi.Malformed? || (hi.Given? && !(0.0 <= hi.value <= 100.0)) {
        return false;
      }
      if hi.Given? {
        overbought := hi.value;
      }
      return oversold < overbought;
    }

    /** The position after all the closes. */
    ghost predicate LongAfterAll(closes: seq<real>, L: int)
      reads this
      requires period >= 2
    {
      hasPosition == LongAfter(Opinions(closes, L, period, oversold, overbought))
    }

    lemma LongMeans(closes: seq<real>, L: int)
      requires period >= 2 && LongAfterAll(closes, L)
      ensures hasPosition == LongAfter(Opinions(closes, L, period, oversold, overbought))
    {}

    /** The gain and loss of the newest close. */
    method Track(ctx: BarsContext, gain: real, loss: real, ghost closes: seq<real>)
      requires ctx.Valid() && closes != [] && Tracked(ctx, Front(closes))
      requires gain == Plus(LastChange(closes, ctx.maxLookback)) && loss == Plus(-LastChange(closes, ctx.maxLookback))
      modifies ctx.custom["gains"], ctx.custom["losses"]
      ensures ctx.Valid() && ctx.bars == old(ctx.bars) && ctx.custom == old(ctx.custom) && Tracked(ctx, closes)
    {
      hide Column, Retained, ctx.Aligned, Plus, LastChange, Rises, Falls, Front;
      ChangesStep(closes, ctx.maxLookback);
      var g := ctx.PushToSeries("gains", gain);
      var l := ctx.PushToSeries("losses", loss);
    }

    /** The two series are registered on the first bar. */
    method Register(ctx: BarsContext)
      requires ctx.Valid() && ctx.bars != [] && Following(ctx, Front(Closes(ctx.bars)))
      modifies ctx`custom
      ensures ctx.Valid() && ctx.bars == old(ctx.bars)
      ensures Tracked(ctx, Front(Closes(ctx.bars)))
      ensures {ctx.custom["gains"], ctx.custom["losses"]} <= ctx.custom.Values
      ensures fresh(ctx.custom.Values - old(ctx.custom.Values))
    {
      hide Column, Retained, ctx.Aligned;
      if "gains" !in ctx.custom {
        var g := ctx.RegisterSeries("gains", None);
        var l := ctx.RegisterSeries("losses", None);
      }
    }

    /** Track the newest change. */
    method Observe(ctx: BarsContext) returns (change: Option<real>)
      requires ctx.Valid() && ctx.bars != [] && Tracked(ctx, Front(Closes(ctx.bars)))
      modifies ctx.custom["gains"], ctx.custom["losses"]
      ensures ctx.Valid() && ctx.bars == old(ctx.bars) && ctx.custom == old(ctx.custom) && Tracked(ctx, Closes(ctx.bars))
      ensures change == None <==> Available(|ctx.bars|, ctx.maxLookback) < 2
    {
      ChangeIsLastChange(ctx);
      hide *;
      change := ctx.Change();
      var move := ValueOr(change, 0.0);
      Track(ctx, Plus(move), Plus(-move), Closes(ctx.bars));
    }

    /** Gains and losses stay aligned with the close. */
    method SeeBar(ctx: BarsContext) returns (change: Option<real>)
      requires ctx.Valid() && ctx.bars != [] && Following(ctx, Front(Closes(ctx.bars)))
      modifies ctx`custom, ctx.custom.Values
      ensures ctx.Valid() && ctx.bars == old(ctx.bars) && Tracked(ctx, Closes(ctx.bars))
      ensures fresh(ctx.custom.Values - old(ctx.custom.Values))
      ensures change == None <==> Available(|ctx.bars|, ctx.maxLookback) < 2
    {
      hide *;
      Register(ctx);
      change := Observe(ctx);
    }

    /** The RSI of the newest bar, once its gain and loss are tracked. */
    method CurrentRsi(ctx: BarsContext) returns (r: Option<real>)
      requires ctx.Valid() && period >= 2 && Tracked(ctx, Closes(ctx.bars))
      requires Available(|ctx.bars|, ctx.maxLookback) >= 2
      ensures r == RsiAt(Closes(ctx.bars), ctx.maxLookback, period)
    {
      hide Column, Retained, Rises, Falls, Average, IsShare;
      if !ctx.IsReadyFor(period + 1) {
        return None;
      }
      var avgGain := SmaOf(ctx.custom["gains"], period);
      var avgLoss := SmaOf(ctx.custom["losses"], period);
      NoIndexOnlyWithoutLosses(Closes(ctx.bars), ctx.maxLookback, period);
      if avgGain == None || avgLoss == None || avgLoss.value == 0.0 {
        return None;
      }
      var rs := avgGain.value / avgLoss.value;
      return Some(100.0 - 100.0 / (1.0 + rs));
    }

    /** Trade on a threshold crossed against the position. */
    method Decide(rsi: Option<real>) returns (signal: Signal)
      requires oversold < overbought
      modifies this`hasPosition
      ensures signal == SignalFor(old(hasPosition), OpinionOf(rsi, oversold, overbought))
      ensures signal == Buy <==> !old(hasPosition) && rsi.Some? && rsi.value < oversold
      ensures signal == Sell <==> old(hasPosition) && rsi.Some? && rsi.value > overbought
      ensures hasPosition == (signal == Buy || (signal == Hold && old(hasPosition)))
    {
      if rsi == None {
        return Hold;
      }
      if rsi.value < oversold && !hasPosition {
        hasPosition := true;
        return Buy;
      }
      if rsi.value > overbought && hasPosition {
        hasPosition := false;
        return Sell;
      }
      return Hold;
    }

    /** The signal and the position are those of the opinions over the closes of all bars, and the
        two series stay aligned with the close. */
    method React(ctx: BarsContext) returns (signal: Signal)
      requires ctx.Valid() && period >= 2 && oversold < overbought && ctx.bars != []
      requires Following(ctx, Front(Closes(ctx.bars))) && LongAfterAll(Front(Closes(ctx.bars)), ctx.maxLookback)
      modifies this`hasPosition, ctx`custom, ctx.custom.Values
      ensures ctx.Valid() && ctx.bars == old(ctx.bars) && fresh(ctx.custom.Values - old(ctx.custom.Values))
      ensures Following(ctx, Closes(ctx.bars)) && LongAfterAll(Closes(ctx.bars), ctx.maxLookback)
      ensures var os := Opinions(Closes(ctx.bars), ctx.maxLookback, period, oversold, overbought);
        signal == SignalsOf(os)[|os| - 1]
    {
      hide Column, Retained, RsiAt, Opinions, LongAfter, SignalsOf, Rises, Falls, ctx.Aligned, ctx.Apart, OpinionOf, Tracked;
      OpinionsStep(Closes(ctx.bars), ctx.maxLookback, period, oversold, overbought);
      assert (this as object) !in ctx.Core();
      var change := SeeBar(ctx);
      if change == None {
        NoRsiHolds(hasPosition, oversold, overbought);
        return Hold;
      }
      var rsi := CurrentRsi(ctx);
      signal := Decide(rsi);
    }

    /** Called once for each bar. It buys when flat and oversold, sells when held and overbought,
        and is long exactly while the last of these two was oversold. */
    method OnBarData(ctx: BarsContext) returns (signal: Signal)
      requires ctx.Valid() && period >= 2 && oversold < overbought && ctx.bars != []
      requires Following(ctx, Front(Closes(ctx.bars))) && LongAfterAll(Front(Closes(ctx.bars)), ctx.maxLookback)
      modifies this`hasPosition, ctx`custom, ctx.custom.Values
      ensures ctx.Valid() && ctx.bars == old(ctx.bars) && fresh(ctx.custom.Values - old(ctx.custom.Values))
      ensures Following(ctx, Closes(ctx.bars)) && LongAfterAll(Closes(ctx.bars), ctx.maxLookback)
      ensures var os := Opinions(Closes(ctx.bars), ctx.maxLookback, period, oversold, overbought);
        signal == SignalsOf(os)[|os| - 1]
      ensures hasPosition <==> Holding(Closes(ctx.bars), ctx.maxLookback, period, oversold, overbought)
      ensures TradesOnThresholds(signal, Closes(ctx.bars), ctx.maxLookback, period, oversold, overbought, |ctx.bars| - 1)
    {
      assert |Closes(ctx.bars)| == |ctx.bars|;
      hide *;
      DecisionsMean(Closes(ctx.bars), ctx.maxLookback, period, oversold, overbought);
      signal := React(ctx);
      LongMeans(Closes(ctx.bars), ctx.maxLookback);
    }
  }

  /** The two custom series hold the rises and falls of these closes. */
  ghost predicate Tracked(ctx: BarsContext, closes: seq<real>)
    reads ctx, ctx.custom.Values
  {
    && "gains" in ctx.custom && "losses" in ctx.custom
    && ctx.custom["gains"].history == Rises(closes, ctx.maxLookback)
    && ctx.custom["losses"].history == Falls(closes, ctx.maxLookback)
    && ctx.custom["gains"].maxLookback == ctx.custom["losses"].maxLookback == ctx.maxLookback
  }

  /** The strategy has seen exactly the bars with these closes. */
  ghost predicate Following(ctx: BarsContext, closes: seq<real>)
    reads ctx, ctx.custom.Values
  {
    if closes == [] && "gains" !in ctx.custom then "losses" !in ctx.custom else Tracked(ctx, closes)
  }
}
