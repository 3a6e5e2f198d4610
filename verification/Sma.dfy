/** The moving average crossover strategy. */
module Sma {
  import opened Options
  import opened SeriesData
  import opened Bars
  import opened Signals

  /** Neutral until the long average is available, and while the averages are equal. */
  function Crossover(closes: seq<real>, L: int, shortPeriod: int, longPeriod: int): Opinion
    requires 1 <= shortPeriod < longPeriod
  {
    if Available(|closes|, L) < longPeriod then Neutral
    else
      var short, long := Sma(closes, shortPeriod).value, Sma(closes, longPeriod).value;
      if short > long then Up else if short < long then Down else Neutral
  }

  function CrossoverOf(L: int, shortPeriod: int, longPeriod: int): seq<real> -> Opinion
    requires 1 <= shortPeriod < longPeriod
  {
    (closes: seq<real>) => Crossover(closes, L, shortPeriod, longPeriod)
  }

  function Crossovers(closes: seq<real>, L: int, shortPeriod: int, longPeriod: int): (os: seq<Opinion>)
    requires 1 <= shortPeriod < longPeriod
    ensures |os| == |closes|
  {
    OpinionsOver(closes, CrossoverOf(L, shortPeriod, longPeriod))
  }

  /** The newest bar at which the averages were available and unequal. */
  ghost predicate LastUnequal(closes: seq<real>, L: int, shortPeriod: int, longPeriod: int, i: nat)
    requires 1 <= shortPeriod < longPeriod
  {
    && i < |closes| && UnequalAt(closes, L, shortPeriod, longPeriod, i)
    && forall j: nat :: i < j < |closes| ==> !UnequalAt(closes, L, shortPeriod, longPeriod, j)
  }

  predicate UnequalAt(closes: seq<real>, L: int, shortPeriod: int, longPeriod: int, i: nat)
    requires 1 <= shortPeriod < longPeriod && i < |closes|
  {
    var past := closes[..i + 1];
    Available(|past|, L) >= longPeriod && Sma(past, shortPeriod) != Sma(past, longPeriod)
  }

  /** Long exactly when at the last ready bar with unequal averages the short one was above. */
  lemma LongIffShortAbove(closes: seq<real>, L: int, shortPeriod: int, longPeriod: int)
    requires 1 <= shortPeriod < longPeriod
    ensures LongAfter(Crossovers(closes, L, shortPeriod, longPeriod)) <==> exists i: nat ::
      && LastUnequal(closes, L, shortPeriod, longPeriod, i)
      && Sma(closes[..i + 1], shortPeriod).value > Sma(closes[..i + 1], longPeriod).value
  {
    hide Average, SumAgo, LongAfter;
    var os := Crossovers(closes, L, shortPeriod, longPeriod);
    forall j: nat | j < |os|
      ensures os[j] != Neutral <==> UnequalAt(closes, L, shortPeriod, longPeriod, j)
    {
      assert os[j] == Crossover(closes[..j + 1], L, shortPeriod, longPeriod);
    }
    LongIffLastOpinionIsUp(os);
    if LongAfter(os) {
      var i: nat :| LastOpinion(os, i) && os[i] == Up;
      assert LastUnequal(closes, L, shortPeriod, longPeriod, i);
    }
    if i: nat :| (
      && LastUnequal(closes, L, shortPeriod, longPeriod, i)
      && Sma(closes[..i + 1], shortPeriod).value > Sma(closes[..i + 1], longPeriod).value)
    {
      assert LastOpinion(os, i) && os[i] == Up;
    }
  }

  /** Both averages of the newest closes are held, and the short one is above the long one; dually
      below. */
  predicate Above(closes: seq<real>, L: int, shortPeriod: int, longPeriod: int)
    requires 1 <= shortPeriod < longPeriod
  {
    Available(|closes|, L) >= longPeriod && Sma(closes, shortPeriod).value > Sma(closes, longPeriod).value
  }

  predicate Below(closes: seq<real>, L: int, shortPeriod: int, longPeriod: int)
    requires 1 <= shortPeriod < longPeriod
  {
    Available(|closes|, L) >= longPeriod && Sma(closes, shortPeriod).value < Sma(closes, longPeriod).value
  }

  datatype LastSignal = NoSignal | LastBuy | LastSell

  class SmaStrategy {
    var shortPeriod: int
    var longPeriod: int
    var lastSignal: LastSignal

    constructor ()
      ensures shortPeriod == 5 && longPeriod == 20 && lastSignal == NoSignal
    {
      shortPeriod, longPeriod, lastSignal := 5, 20, NoSignal;
    }

    /** Accepts exactly well-formed periods with 1 <= short < long; the periods are changed
        even when they are then refused. */
    method Initialize(short: Param<int>, long: Param<int>) returns (ok: bool)
      modifies this
      ensures lastSignal == old(lastSignal)
      ensures shortPeriod == if short.Given? then short.value else old(shortPeriod)
      ensures !short.Malformed? ==> longPeriod == if long.Given? then long.value else old(longPeriod)
      ensures ok <==> !short.Malformed? && !long.Malformed? && 1 <= shortPeriod < longPeriod
    {
      if short.Malformed? {
        return false;
      }
      if short.Given? {
        shortPeriod := short.value;
      }
      if long.Malformed? {
        return false;
      }
      if long.Given? {
        longPeriod := long.value;
      }
      if shortPeriod >= longPeriod {
        return false;
      }
      return !(shortPeriod < 1 || longPeriod < 1);
    }

    /** The last signal is the newest trade of the run so far. */
    ghost predicate Follows(closes: seq<real>, L: int)
      requires 1 <= shortPeriod < longPeriod
      reads this
    {
      (lastSignal == LastBuy) == LongAfter(Crossovers(closes, L, shortPeriod, longPeriod))
    }

    /** Called once for each bar; the lookback only matters when it is below the long period. */
    method OnBarData(ctx: BarsContext) returns (signal: Signal)
      requires ctx.Valid() && ctx.bars != [] && 1 <= shortPeriod < longPeriod
      requires Follows(Closes(ctx.bars)[..|ctx.bars| - 1], ctx.maxLookback)
      modifies this`lastSignal
      ensures Follows(Closes(ctx.bars), ctx.maxLookback)
      ensures var os := Crossovers(Closes(ctx.bars), ctx.maxLookback, shortPeriod, longPeriod);
        signal == SignalsOf(os)[|os| - 1]
      ensures signal == Buy <==>
        old(lastSignal) != LastBuy && Above(Closes(ctx.bars), ctx.maxLookback, shortPeriod, longPeriod)
      ensures signal == Sell <==>
        old(lastSignal) == LastBuy && Below(Closes(ctx.bars), ctx.maxLookback, shortPeriod, longPeriod)
      ensures lastSignal == match signal
        case Buy => LastBuy
        case Sell => LastSell
        case Hold => old(lastSignal)
    {
      hide Average, Retained, Column, OpinionsOver, LongAfter, SignalsOf;
      OpinionsOverLast(Closes(ctx.bars), CrossoverOf(ctx.maxLookback, shortPeriod, longPeriod));
      if !ctx.IsReadyFor(longPeriod) {
        return Hold;
      }
      var short := SmaOf(ctx.close, shortPeriod);
      var long := SmaOf(ctx.close, longPeriod);
      if short.value > long.value && lastSignal != LastBuy {
        lastSignal := LastBuy;
        return Buy;
      } else if short.value < long.value && lastSignal == LastBuy {
        lastSignal := LastSell;
        return Sell;
      }
      return Hold;
    }

    method Reset()
      modifies this
      ensures lastSignal == NoSignal && shortPeriod == old(shortPeriod) && longPeriod == old(longPeriod)
    {
      lastSignal := NoSignal;
    }
  }
}
