/** The bars context: seven series pushed together, and the custom series strategies add. */
module Bars {
  import opened Options
  import opened SeriesData

  datatype Bar = Bar(
    open: real, high: real, low: real, close: real, volume: real,
    timestamp: string, tradeCount: int, symbol: Option<string>)

  /** One field of every bar, oldest first. */
  function Column<T>(bars: seq<Bar>, field: Bar -> T): (c: seq<T>)
    ensures |c| == |bars| && forall i :: 0 <= i < |bars| ==> c[i] == field(bars[i])
  {
    seq(|bars|, i requires 0 <= i < |bars| => field(bars[i]))
  }

  const OF_OPEN: Bar -> real := (b: Bar) => b.open
  const OF_HIGH: Bar -> real := (b: Bar) => b.high
  const OF_LOW: Bar -> real := (b: Bar) => b.low
  const OF_CLOSE: Bar -> real := (b: Bar) => b.close
  const OF_VOLUME: Bar -> real := (b: Bar) => b.volume
  const OF_TIME: Bar -> string := (b: Bar) => b.timestamp
  const OF_TRADE_COUNT: Bar -> int := (b: Bar) => b.tradeCount

  function Closes(bars: seq<Bar>): seq<real> { Column(bars, OF_CLOSE) }

  lemma ColumnAppend<T>(bars: seq<Bar>, b: Bar, field: Bar -> T)
    ensures Column(bars + [b], field) == Column(bars, field) + [field(b)]
  {}

  lemma NoColumns()
    ensures Column([], OF_OPEN) == [] && Column([], OF_HIGH) == [] && Column([], OF_LOW) == []
    ensures Column([], OF_CLOSE) == [] && Column([], OF_VOLUME) == []
    ensures Column([], OF_TIME) == [] && Column([], OF_TRADE_COUNT) == []
  {}

  method NewPrices(L: int) returns (o: Series<real>, h: Series<real>, l: Series<real>, c: Series<real>, v: Series<real>)
    ensures fresh({o, h, l, c, v})
    ensures o !in {h, l, c, v} && h !in {l, c, v} && l !in {c, v} && c != v
    ensures Holds(o, L, [], OF_OPEN) && Holds(h, L, [], OF_HIGH) && Holds(l, L, [], OF_LOW)
    ensures Holds(c, L, [], OF_CLOSE) && Holds(v, L, [], OF_VOLUME)
    ensures o.warmup == h.warmup == l.warmup == c.warmup == v.warmup == 1
  {
    hide Retained, Column;
    NoColumns();
    o := new Series(L, 1);
    h := new Series(L, 1);
    l := new Series(L, 1);
    c := new Series(L, 1);
    v := new Series(L, 1);
  }

  /** A series holding one column. */
  ghost predicate Holds<T(!new)>(s: Series<T>, L: int, bars: seq<Bar>, field: Bar -> T)
    reads s
  {
    s.Consistent() && s.maxLookback == L && s.history == Column(bars, field)
  }

  class BarsContext {
    const maxLookback: int
    const open: Series<real>
    const high: Series<real>
    const low: Series<real>
    const close: Series<real>
    const volume: Series<real>
    const time: Series<string>
    const tradeCount: Series<int>
    var symbol: string
    var currentBar: nat
    var custom: map<string, Series<real>>
    ghost var bars: seq<Bar>       // every bar since the last reset

    ghost function Core(): set<object> {
      {open as object, high, low, close, volume, time, tradeCount}
    }

    ghost predicate Aligned()
      reads this, Core()
    {
      && Holds(open, maxLookback, bars, OF_OPEN) && Holds(high, maxLookback, bars, OF_HIGH)
      && Holds(low, maxLookback, bars, OF_LOW) && Holds(close, maxLookback, bars, OF_CLOSE)
      && Holds(volume, maxLookback, bars, OF_VOLUME) && Holds(time, maxLookback, bars, OF_TIME)
      && Holds(tradeCount, maxLookback, bars, OF_TRADE_COUNT) && currentBar == |bars|
    }

    /** No two series are one object. */
    ghost predicate Apart()
      reads this
    {
      && open !in {high, low, close, volume} && high !in {low, close, volume} && low !in {close, volume}
      && close != volume && (time as object) !in {open as object, high, low, close, volume, tradeCount}
      && (tradeCount as object) !in {open as object, high, low, close, volume}
      && (forall name :: name in custom ==> custom[name] !in Core())
      && (forall a, b :: a in custom && b in custom && custom[a] == custom[b] ==> a == b)
    }

    ghost predicate Valid()
      reads this, Core(), custom.Values
    {
      && Aligned() && Apart()
      && (forall name :: name in custom ==> custom[name].Consistent())
    }

    constructor (symbol: string, maxLookback: int)
      ensures Valid() && bars == [] && custom == map[] && this.maxLookback == maxLookback && this.symbol == symbol
      ensures fresh(Core())
      ensures open.warmup == high.warmup == low.warmup == close.warmup == volume.warmup == time.warmup == tradeCount.warmup == 1
    {
      hide Retained, Column;
      NoColumns();
      this.symbol, this.maxLookback := symbol, maxLookback;
      var o, h, l, c, v := NewPrices(maxLookback);
      open, high, low, close, volume := o, h, l, c, v;
      time := new Series(maxLookback, 1);
      tradeCount := new Series(maxLookback, 1);
      currentBar, custom, bars := 0, map[], [];
      new;
      assert Apart();
    }

    method PushPrices(b: Bar)
      requires Aligned() && Apart()
      modifies open, high, low, close, volume
      ensures Holds(open, maxLookback, bars + [b], OF_OPEN) && Holds(high, maxLookback, bars + [b], OF_HIGH)
      ensures Holds(low, maxLookback, bars + [b], OF_LOW) && Holds(close, maxLookback, bars + [b], OF_CLOSE)
      ensures Holds(volume, maxLookback, bars + [b], OF_VOLUME)
    {
      hide Column, Retained;
      open.Push(b.open);
      high.Push(b.high);
      low.Push(b.low);
      close.Push(b.close);
      volume.Push(b.volume);
      ColumnAppend(bars, b, OF_OPEN);
      ColumnAppend(bars, b, OF_HIGH);
      ColumnAppend(bars, b, OF_LOW);
      ColumnAppend(bars, b, OF_CLOSE);
      ColumnAppend(bars, b, OF_VOLUME);
    }

    method PushTimes(b: Bar)
      requires Holds(time, maxLookback, bars, OF_TIME) && Holds(tradeCount, maxLookback, bars, OF_TRADE_COUNT)
      requires (time as object) != tradeCount
      modifies time, tradeCount
      ensures Holds(time, maxLookback, bars + [b], OF_TIME) && Holds(tradeCount, maxLookback, bars + [b], OF_TRADE_COUNT)
    {
      hide Column, Retained;
      time.Push(b.timestamp);
      tradeCount.Push(b.tradeCount);
      ColumnAppend(bars, b, OF_TIME);
      ColumnAppend(bars, b, OF_TRADE_COUNT);
    }

    method OnBarUpdate(b: Bar)
      requires Valid()
      modifies this`currentBar, this`symbol, this`bars, Core()
      ensures Valid() && bars == old(bars) + [b]
      ensures symbol == if |bars| == 1 && b.symbol.Some? then b.symbol.value else old(symbol)
    {
      hide Column, Retained;
      PushPrices(b);
      PushTimes(b);
      currentBar := currentBar + 1;
      if currentBar == 1 && b.symbol.Some? {
        symbol := b.symbol.value;
      }
      bars := bars + [b];
    }

    method Reset()
      requires Valid()
      modifies this, Core()
      ensures Valid() && bars == [] && custom == map[] && symbol == old(symbol)
    {
      open.Reset();
      high.Reset();
      low.Reset();
      close.Reset();
      volume.Reset();
      time.Reset();
      tradeCount.Reset();
      currentBar, custom, bars := 0, map[], [];
    }

    function Count(): (n: nat)
      requires Valid()
      reads this, Core(), custom.Values
      ensures n == Available(|bars|, maxLookback)
    {
      close.Count()
    }

    predicate IsReadyFor(lookback: int)
      requires Valid()
      reads this, Core(), custom.Values
      ensures IsReadyFor(lookback) <==> Available(|bars|, maxLookback) >= lookback
    {
      Count() >= lookback
    }

    /** The price change since the previous close, when both are still held. */
    function Change(): (r: Option<real>)
      requires Valid()
      reads this, Core(), custom.Values
      ensures r == if Available(|bars|, maxLookback) < 2 then None
                   else Some(bars[|bars| - 1].close - bars[|bars| - 2].close)
    {
      if close.Count() < 2 then None else Some(close.Get(0).value - close.Get(1).value)
    }

    /** A new empty series under the name, in place of an older one of that name. */
    method RegisterSeries(name: string, lookback: Option<int>) returns (s: Series<real>)
      requires Valid()
      modifies this`custom
      ensures Valid() && fresh(s) && custom == old(custom)[name := s]
      ensures s.history == [] && s.warmup == 1 && s.maxLookback == if lookback.Some? then lookback.value else maxLookback
    {
      hide Column, Retained, Holds;
      s := new Series(if lookback.Some? then lookback.value else maxLookback, 1);
      custom := custom[name := s];
    }

    /** Pushes to the named series and to no other; false when there is none. */
    method PushToSeries(name: string, v: real) returns (ok: bool)
      requires Valid()
      modifies if name in custom then {custom[name]} else {}
      ensures Valid() && bars == old(bars) && custom == old(custom) && (ok <==> name in custom)
      ensures ok ==> custom[name].history == old(custom[name].history) + [v]
    {
      hide Column;
      ok := name in custom;
      if ok {
        custom[name].Push(v);
      }
    }
  }
}
