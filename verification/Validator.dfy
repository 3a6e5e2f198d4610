/** The tick validator: field checks in a fixed order, then the change from the last price of
    the symbol, which an accepted tick replaces. */
module Validation {
  import opened Arithmetic
  import opened Options
  import opened Sorting

  /** The provider's trade id is optional; timestamps and durations are integers. */
  datatype Tick = Tick(
    symbol: string, exchange: string, price: real, size: real, tradeId: Option<string>, tsEvent: int)

  datatype Config = Config(
    maxPrice: real, maxChangePercent: real, maxSymbolLength: nat, maxExchangeLength: nat, maxTradeIdLength: nat,
    maxAge: int, maxFuture: int, requireTradeId: bool, enabled: bool, overrides: map<string, real>)
  {
    /** The largest change in percent for a symbol. */
    function MaxChange(symbol: string): real {
      if symbol in overrides then overrides[symbol] else maxChangePercent
    }
  }

  datatype Error =
    | PriceNotPositive | PriceOutOfBounds | SizeNotPositive
    | EmptySymbol | SymbolTooLong | InvalidSymbolChars | SymbolNotUppercase
    | EmptyExchange | ExchangeTooLong | InvalidExchangeChars
    | EmptyTradeId | TradeIdTooLong | InvalidTradeIdChars
    | TimestampInFuture | TimestampTooOld
    | SuspiciousPriceChange(oldPrice: real, newPrice: real)

  predicate Digit(c: char) { '0' <= c <= '9' }
  predicate Upper(c: char) { 'A' <= c <= 'Z' }
  predicate Lower(c: char) { 'a' <= c <= 'z' }
  predicate Alphanumeric(c: char) { Digit(c) || Upper(c) || Lower(c) }
  predicate Printable(c: char) { ' ' <= c <= '~' }

  function TradeIdOf(t: Tick): string { if t.tradeId.Some? then t.tradeId.value else "" }

  /** A tick whose fields are all in order; the last price is not looked at. */
  predicate WellFormed(c: Config, t: Tick, now: int) {
    && 0.0 < t.price <= c.maxPrice && t.size > 0.0
    && 0 < |t.symbol| <= c.maxSymbolLength
    && (forall i :: 0 <= i < |t.symbol| ==> '0' <= t.symbol[i] <= '9' || 'A' <= t.symbol[i] <= 'Z')
    && 0 < |t.exchange| <= c.maxExchangeLength
    && (forall i :: 0 <= i < |t.exchange| ==>
          || '0' <= t.exchange[i] <= '9' || 'A' <= t.exchange[i] <= 'Z' || 'a' <= t.exchange[i] <= 'z' || t.exchange[i] == '_')
    && (c.requireTradeId ==> t.tradeId.Some? && t.tradeId.value != "")
    && (t.tradeId.Some? ==>
          |t.tradeId.value| <= c.maxTradeIdLength && forall i :: 0 <= i < |t.tradeId.value| ==> ' ' <= t.tradeId.value[i] <= '~')
    && now - c.maxAge <= t.tsEvent <= now + c.maxFuture
  }

  /** Which error a symbol is refused with, and when it passes. */
  ghost predicate SymbolMeans(c: Config, s: string, e: Option<Error>) {
    var fits := 0 < |s| <= c.maxSymbolLength;
    var strange := exists i :: 0 <= i < |s| && !('0' <= s[i] <= '9' || 'A' <= s[i] <= 'Z' || 'a' <= s[i] <= 'z');
    var lower := exists i :: 0 <= i < |s| && 'a' <= s[i] <= 'z';
    && (e == Some(EmptySymbol) <==> s == "")
    && (e == Some(SymbolTooLong) <==> s != "" && |s| > c.maxSymbolLength)
    && (e == Some(InvalidSymbolChars) <==> fits && strange)
    && (e == Some(SymbolNotUppercase) <==> fits && !strange && lower)
    && (e == None <==> fits && !strange && !lower)
  }

  ghost predicate ExchangeMeans(c: Config, s: string, e: Option<Error>) {
    var fits := 0 < |s| <= c.maxExchangeLength;
    var strange := exists i :: 0 <= i < |s| && !('0' <= s[i] <= '9' || 'A' <= s[i] <= 'Z' || 'a' <= s[i] <= 'z' || s[i] == '_');
    && (e == Some(EmptyExchange) <==> s == "")
    && (e == Some(ExchangeTooLong) <==> s != "" && |s| > c.maxExchangeLength)
    && (e == Some(InvalidExchangeChars) <==> fits && strange)
    && (e == None <==> fits && !strange)
  }

  /** A missing trade id is as good as an empty one. */
  ghost predicate TradeIdMeans(c: Config, id: Option<string>, e: Option<Error>) {
    var none := id == None || id.value == "";
    var long := id.Some? && id.value != "" && |id.value| > c.maxTradeIdLength;
    var strange := id.Some? && exists i :: 0 <= i < |id.value| && !(' ' <= id.value[i] <= '~');
    && (e == Some(EmptyTradeId) <==> none && c.requireTradeId)
    && (e == Some(TradeIdTooLong) <==> long)
    && (e == Some(InvalidTradeIdChars) <==> !none && !long && strange)
    && (e == None <==> if none then !c.requireTradeId else !long && !strange)
  }

  /** The change to a price in percent of the old one, either way. */
  function ChangePercent(oldPrice: real, newPrice: real): real
    requires oldPrice > 0.0
  {
    Abs((newPrice - oldPrice) / oldPrice * 100.0)
  }

  function Abs(x: real): real { if x < 0.0 then -x else x }

  predicate Suspicious(c: Config, last: Option<real>, t: Tick) {
    last.Some? && last.value > 0.0 && ChangePercent(last.value, t.price) > c.MaxChange(t.symbol)
  }

  function Lookup(last: map<string, real>, symbol: string): Option<real> {
    if symbol in last then Some(last[symbol]) else None
  }

  predicate All(s: string, ok: char -> bool) { forall i :: 0 <= i < |s| ==> ok(s[i]) }

  const ALPHANUMERIC_CHAR: char -> bool := (c: char) => Alphanumeric(c)
  const NOT_LOWER_CHAR: char -> bool := (c: char) => !Lower(c)
  const EXCHANGE_CHAR: char -> bool := (c: char) => Alphanumeric(c) || c == '_'
  const PRINTABLE_CHAR: char -> bool := (c: char) => Printable(c)

  function SymbolError(c: Config, s: string): Option<Error> {
    if s == "" then Some(EmptySymbol)
    else if |s| > c.maxSymbolLength then Some(SymbolTooLong)
    else if !All(s, ALPHANUMERIC_CHAR) then Some(InvalidSymbolChars)
    else if !All(s, NOT_LOWER_CHAR) then Some(SymbolNotUppercase)
    else None
  }

  function ExchangeError(c: Config, s: string): Option<Error> {
    if s == "" then Some(EmptyExchange)
    else if |s| > c.maxExchangeLength then Some(ExchangeTooLong)
    else if !All(s, EXCHANGE_CHAR) then Some(InvalidExchangeChars)
    else None
  }

  function TradeIdError(c: Config, id: string): Option<Error> {
    if c.requireTradeId && id == "" then Some(EmptyTradeId)
    else if id == "" then None
    else if |id| > c.maxTradeIdLength then Some(TradeIdTooLong)
    else if !All(id, PRINTABLE_CHAR) then Some(InvalidTradeIdChars)
    else None
  }

  /** The first check that fails. */
  function Verdict(c: Config, last: Option<real>, t: Tick, now: int): Option<Error> {
    if !c.enabled then None
    else if t.price <= 0.0 then Some(PriceNotPositive)
    else if t.price > c.maxPrice then Some(PriceOutOfBounds)
    else if t.size <= 0.0 then Some(SizeNotPositive)
    else if SymbolError(c, t.symbol).Some? then SymbolError(c, t.symbol)
    else if ExchangeError(c, t.exchange).Some? then ExchangeError(c, t.exchange)
    else if TradeIdError(c, TradeIdOf(t)).Some? then TradeIdError(c, TradeIdOf(t))
    else if t.tsEvent > now + c.maxFuture then Some(TimestampInFuture)
    else if t.tsEvent < now - c.maxAge then Some(TimestampTooOld)
    else if Suspicious(c, last, t) then Some(SuspiciousPriceChange(last.value, t.price))
    else None
  }

  lemma FieldErrorsMean(c: Config, t: Tick)
    ensures SymbolMeans(c, t.symbol, SymbolError(c, t.symbol))
    ensures ExchangeMeans(c, t.exchange, ExchangeError(c, t.exchange))
    ensures TradeIdMeans(c, t.tradeId, TradeIdError(c, TradeIdOf(t)))
  {}

  /** The checks go in this order: price, size, symbol, exchange, trade id, time, and last the
      change of price. */
  lemma ErrorsInOrder(c: Config, last: Option<real>, t: Tick, now: int)
    requires c.enabled
    ensures var e := Verdict(c, last, t, now);
      var priced := 0.0 < t.price <= c.maxPrice && t.size > 0.0;
      var symbol, exchange, id := SymbolError(c, t.symbol), ExchangeError(c, t.exchange), TradeIdError(c, TradeIdOf(t));
      && (e == Some(PriceNotPositive) <==> t.price <= 0.0)
      && (e == Some(PriceOutOfBounds) <==> t.price > 0.0 && t.price > c.maxPrice)
      && (e == Some(SizeNotPositive) <==> 0.0 < t.price <= c.maxPrice && t.size <= 0.0)
      && (priced && symbol.Some? ==> e == symbol)
      && (priced && symbol == None && exchange.Some? ==> e == exchange)
      && (priced && symbol == None && exchange == None && id.Some? ==> e == id)
      && (e == Some(TimestampInFuture) <==> priced && symbol == None && exchange == None && id == None && t.tsEvent > now + c.maxFuture)
      && (e == Some(TimestampTooOld) <==>
            && priced && symbol == None && exchange == None && id == None
            && t.tsEvent <= now + c.maxFuture && t.tsEvent < now - c.maxAge)
  {
    FieldErrorsMean(c, t);
    OtherErrors(c, t);
    hide SymbolError, ExchangeError, TradeIdError, SymbolMeans, ExchangeMeans, TradeIdMeans;
  }

  predicate OfAField(e: Option<Error>) {
    e !in {Some(PriceNotPositive), Some(PriceOutOfBounds), Some(SizeNotPositive), Some(TimestampInFuture), Some(TimestampTooOld)}
  }

  lemma OtherErrors(c: Config, t: Tick)
    ensures OfAField(SymbolError(c, t.symbol)) && OfAField(ExchangeError(c, t.exchange)) && OfAField(TradeIdError(c, TradeIdOf(t)))
  {}

  /** A tick is accepted exactly when its fields are in order and its price did not jump; a
      jump is only ever reported for a tick that is otherwise in order. */
  lemma VerdictMeaning(c: Config, last: Option<real>, t: Tick, now: int)
    requires c.enabled
    ensures Verdict(c, last, t, now) == None <==> WellFormed(c, t, now) && !Suspicious(c, last, t)
    ensures Verdict(c, last, t, now).Some? && Verdict(c, last, t, now).value.SuspiciousPriceChange?
       <==> WellFormed(c, t, now) && Suspicious(c, last, t)
  {
    hide Suspicious;
  }

  /** The last prices after an accepted tick, or the same after a rejected one. */
  function Accept(c: Config, last: map<string, real>, t: Tick, now: int): map<string, real> {
    if c.enabled && Verdict(c, Lookup(last, t.symbol), t, now) == None then last[t.symbol := t.price] else last
  }

  // ---- Whole runs, also with callers interleaved between check and update ---------------------------------------------

  /** The validator takes its locks twice, to check and to update: `passed` are the ticks
      checked and not yet written. */
  datatype State = State(last: map<string, real>, passed: seq<Tick>)

  datatype Op = Check(t: Tick, now: int) | Write(i: nat) | Clear

  function Apply(c: Config, s: State, op: Op): State {
    match op
    case Check(t, now) =>
      if c.enabled && Verdict(c, Lookup(s.last, t.symbol), t, now) == None then s.(passed := s.passed + [t]) else s
    case Write(i) =>
      if i >= |s.passed| then s else State(s.last[s.passed[i].symbol := s.passed[i].price], RemoveAt(s.passed, i))
    case Clear => s.(last := map[])
  }

  function RunOps(c: Config, s: State, ops: seq<Op>): State {
    if ops == [] then s else Apply(c, RunOps(c, s, ops[..|ops| - 1]), ops[|ops| - 1])
  }

  /** How many ticks of the symbol were accepted. */
  function Accepted(c: Config, s: State, ops: seq<Op>, symbol: string): nat {
    if ops == [] then 0
    else
      var before, op := RunOps(c, s, ops[..|ops| - 1]), ops[|ops| - 1];
      Accepted(c, s, ops[..|ops| - 1], symbol) +
        if op.Check? && op.t.symbol == symbol && Verdict(c, Lookup(before.last, symbol), op.t, op.now) == None then 1 else 0
  }

  function Pow(x: real, n: nat): real { if n == 0 then 1.0 else Times(Pow(x, n - 1), x) }

  function Times(x: real, y: real): real { x * y }

  /** Within n changes by at most the fraction k of p0. */
  ghost predicate Within(p: real, p0: real, k: real, n: nat) {
    && 0.0 < p <= Times(p0, Pow(1.0 + k, n))
    && (k <= 1.0 ==> p >= Times(p0, Pow(1.0 - k, n)))
  }

  /** One accepted change, from any price within n changes, is within n + 1. */
  lemma WithinStep(p: real, q: real, p0: real, k: real, n: nat)
    requires k >= 0.0 && p0 > 0.0 && p > 0.0 && Within(q, p0, k, n) && Times(q, 1.0 - k) <= p <= Times(q, 1.0 + k)
    ensures Within(p, p0, k, n + 1)
  {
    hide Times;
    var up, down := Pow(1.0 + k, n), Pow(1.0 - k, n);
    Scale(q, Times(p0, up), 1.0 + k);
    Regroup(p0, up, 1.0 + k);
    if k <= 1.0 {
      Scale(Times(p0, down), q, 1.0 - k);
      Regroup(p0, down, 1.0 - k);
    }
  }

  lemma Scale(a: real, b: real, f: real)
    requires a <= b && f >= 0.0
    ensures Times(a, f) <= Times(b, f)
  {}

  lemma Regroup(a: real, b: real, f: real)
    ensures Times(Times(a, b), f) == Times(a, Times(b, f))
  {}

  lemma WithinLater(p: real, p0: real, k: real, n: nat)
    requires k >= 0.0 && p0 > 0.0 && Within(p, p0, k, n)
    ensures Within(p, p0, k, n + 1)
  {
    WithinStep(p, p, p0, k, n) by {
      assert Times(p, 1.0 - k) <= p <= Times(p, 1.0 + k) by { assert p * k >= 0.0; }
    }
  }

  /** What an accepted change means without the division. */
  lemma NotSuspicious(c: Config, q: real, t: Tick, k: real)
    requires q > 0.0 && k == (if t.symbol in c.overrides then c.overrides[t.symbol] else c.maxChangePercent) / 100.0
    ensures !Suspicious(c, Some(q), t) <==> Times(q, 1.0 - k) <= t.price <= Times(q, 1.0 + k)
    ensures !Suspicious(c, Some(q), t) ==> k >= 0.0
  {
    var x := (t.price - q) / q;
    assert x * q == t.price - q;
    assert !Suspicious(c, Some(q), t) <==> -k <= x <= k;
    assert Times(q, 1.0 - k) == q - k * q && Times(q, 1.0 + k) == q + k * q;
    ScaleOrder(x, k, q);
    ScaleOrder(-k, x, q);
  }

  /** Every price of the symbol the validator knows or is about to write. */
  ghost predicate PricesWithin(s: State, symbol: string, p0: real, k: real, n: nat) {
    && symbol in s.last && Within(s.last[symbol], p0, k, n)
    && (forall i :: 0 <= i < |s.passed| && s.passed[i].symbol == symbol ==> Within(s.passed[i].price, p0, k, n))
  }

  lemma StepWithin(c: Config, s: State, op: Op, symbol: string, p0: real, k: real, n: nat)
    requires p0 > 0.0 && k == c.MaxChange(symbol) / 100.0 && c.enabled && !op.Clear? && PricesWithin(s, symbol, p0, k, n)
    ensures var one := op.Check? && op.t.symbol == symbol && Verdict(c, Lookup(s.last, symbol), op.t, op.now) == None;
      PricesWithin(Apply(c, s, op), symbol, p0, k, if one then n + 1 else n)
  {
    hide Within, Times, Suspicious, WellFormed;
    match op {
      case Check(t, now) =>
        if t.symbol == symbol && Verdict(c, Lookup(s.last, symbol), t, now) == None {
          var q := s.last[symbol];
          VerdictMeaning(c, Some(q), t, now);
          WithinIsPositive(q, p0, k, n);
          NotSuspicious(c, q, t, k);
          WithinStep(t.price, q, p0, k, n);
          WithinLater(q, p0, k, n);
          forall i | 0 <= i < |s.passed| && s.passed[i].symbol == symbol ensures Within(s.passed[i].price, p0, k, n + 1) {
            WithinLater(s.passed[i].price, p0, k, n);
          }
        }
      case Write(i) =>
    }
  }

  lemma WithinIsPositive(p: real, p0: real, k: real, n: nat)
    requires Within(p, p0, k, n)
    ensures p > 0.0
  {}

  /** However callers interleave, n accepted ticks keep the price of a symbol between
      p0 (1 - c/100)^n, for c up to 100, and p0 (1 + c/100)^n. */
  lemma {:induction false} AcceptedPricesAreBounded(c: Config, s: State, ops: seq<Op>, symbol: string, p0: real)
    requires c.enabled && p0 > 0.0 && Lookup(s.last, symbol) == Some(p0)
    requires (forall i :: 0 <= i < |s.passed| ==> s.passed[i].symbol != symbol) && (forall op :: op in ops ==> !op.Clear?)
    ensures PricesWithin(RunOps(c, s, ops), symbol, p0, c.MaxChange(symbol) / 100.0, Accepted(c, s, ops, symbol))
  {
    if ops == [] {
      assert Within(p0, p0, c.MaxChange(symbol) / 100.0, 0);
    } else {
      var n := |ops| - 1;
      hide Within, Verdict;
      AcceptedPricesAreBounded(c, s, ops[..n], symbol, p0);
      assert ops[n] in ops;
      StepWithin(c, RunOps(c, s, ops[..n]), ops[n], symbol, p0, c.MaxChange(symbol) / 100.0, Accepted(c, s, ops[..n], symbol));
    }
  }

  // ---- Successive prices -------------------------------------------------------------------------------------------

  /** How many ticks of the symbol are checked and not yet written. */
  function PendingOf(passed: seq<Tick>, symbol: string): nat {
    if passed == [] then 0
    else PendingOf(passed[..|passed| - 1], symbol) + if passed[|passed| - 1].symbol == symbol then 1 else 0
  }

  lemma PendingAppend(passed: seq<Tick>, t: Tick, symbol: string)
    ensures PendingOf(passed + [t], symbol) == PendingOf(passed, symbol) + if t.symbol == symbol then 1 else 0
  {
    assert (passed + [t])[..|passed|] == passed;
  }

  lemma {:induction false} PendingRemove(passed: seq<Tick>, i: nat, symbol: string)
    requires i < |passed|
    ensures PendingOf(passed, symbol) == PendingOf(RemoveAt(passed, i), symbol) + if passed[i].symbol == symbol then 1 else 0
  {
    var n := |passed| - 1;
    if i == n {
      assert RemoveAt(passed, i) == passed[..n];
    } else {
      PendingRemove(passed[..n], i, symbol);
      assert RemoveAt(passed, i)[..n - 1] == RemoveAt(passed[..n], i);
    }
  }

  lemma {:induction false} NonePending(passed: seq<Tick>, symbol: string)
    ensures PendingOf(passed, symbol) == 0 <==> forall i :: 0 <= i < |passed| ==> passed[i].symbol != symbol
  {
    if passed != [] {
      NonePending(passed[..|passed| - 1], symbol);
    }
  }

  /** Writing any pending tick of the symbol would keep the limit. */
  ghost predicate InStep(c: Config, s: State, symbol: string) {
    forall i :: 0 <= i < |s.passed| && s.passed[i].symbol == symbol ==> !Suspicious(c, Lookup(s.last, symbol), s.passed[i])
  }

  lemma StepKeepsInStep(c: Config, s: State, op: Op, symbol: string)
    requires InStep(c, s, symbol) && PendingOf(s.passed, symbol) <= 1 && PendingOf(Apply(c, s, op).passed, symbol) <= 1
    ensures InStep(c, Apply(c, s, op), symbol)
  {
    hide WellFormed, ChangePercent;
    match op {
      case Check(t, now) =>
        if c.enabled {
          VerdictMeaning(c, Lookup(s.last, t.symbol), t, now);
          PendingAppend(s.passed, t, symbol);
          NonePending(s.passed, symbol);
        }
      case Write(i) =>
        if i < |s.passed| {
          PendingRemove(s.passed, i, symbol);
          NonePending(RemoveAt(s.passed, i), symbol);
        }
      case Clear =>
    }
  }

  /** While never more than one tick of a symbol is between its check and its write, whatever
      other symbols do, every price stored for it is within the limit of the one it replaces. */
  lemma {:induction false} SingleFileKeepsTheLimit(c: Config, s: State, ops: seq<Op>, symbol: string)
    requires PendingOf(s.passed, symbol) == 0
    requires forall n :: 0 <= n <= |ops| ==> PendingOf(RunOps(c, s, ops[..n]).passed, symbol) <= 1
    ensures InStep(c, RunOps(c, s, ops), symbol)
  {
    hide Suspicious, Apply;
    assert ops[..|ops|] == ops;
    if ops == [] {
      NonePending(s.passed, symbol);
    } else {
      var n := |ops| - 1;
      forall m | 0 <= m <= n ensures PendingOf(RunOps(c, s, ops[..n][..m]).passed, symbol) <= 1 {
        assert ops[..n][..m] == ops[..m];
      }
      SingleFileKeepsTheLimit(c, s, ops[..n], symbol);
      StepKeepsInStep(c, RunOps(c, s, ops[..n]), ops[n], symbol);
    }
  }

  /** Both ticks pass against the price p0, and the second jumps from the first. */
  ghost predicate Jump(c: Config, p0: real, first: Tick, second: Tick, now: int) {
    && WellFormed(c, first, now) && WellFormed(c, second, now) && first.symbol == second.symbol && p0 > 0.0
    && !Suspicious(c, Some(p0), first) && !Suspicious(c, Some(p0), second) && Suspicious(c, Some(first.price), second)
  }

  /** With two pending the limit can be broken for every tick that is in order, as soon as the
      symbol's limit is positive. */
  lemma EveryTickCanJump(c: Config, t: Tick, now: int) returns (p0: real, first: Tick)
    requires WellFormed(c, t, now) && c.MaxChange(t.symbol) > 0.0
    ensures Jump(c, p0, first, t, now)
  {
    var k := c.MaxChange(t.symbol) / 100.0;
    p0 := t.price / (1.0 + k);
    assert Times(p0, 1.0 + k) == t.price;
    ScaleOrder(p0, 0.0, 1.0 + k);
    var f := if k < 0.5 then k else 0.5;
    var low := Times(p0, 1.0 - f);
    LowerPrice(p0, k, f);
    first := t.(price := low);
    NotSuspicious(c, p0, t, k);
    NotSuspicious(c, p0, first, k);
    NotSuspicious(c, low, t, k);
  }

  lemma LowerPrice(p0: real, k: real, f: real)
    requires p0 > 0.0 && k > 0.0 && f == if k < 0.5 then k else 0.5
    ensures 0.0 < Times(p0, 1.0 - f) < p0 < Times(p0, 1.0 + k)
    ensures Times(p0, 1.0 - k) <= Times(p0, 1.0 - f) <= Times(p0, 1.0 + k)
    ensures Times(Times(p0, 1.0 - f), 1.0 + k) < Times(p0, 1.0 + k)
  {
    ScaleOrder(1.0 - f, 0.0, p0);
    ScaleOrder(1.0, 1.0 - f, p0);
    ScaleOrder(1.0 + k, 1.0, p0);
    ScaleOrder(1.0 - k, 1.0 - f, p0);
    ScaleOrder(p0, Times(p0, 1.0 - f), 1.0 + k);
  }

  /** With a limit that is not positive no two ticks can jump. */
  lemma JumpsNeedAPositiveLimit(c: Config, p0: real, first: Tick, second: Tick, now: int)
    requires Jump(c, p0, first, second, now)
    ensures c.MaxChange(second.symbol) > 0.0
  {
    var k := c.MaxChange(second.symbol) / 100.0;
    NotSuspicious(c, p0, first, k);
    NotSuspicious(c, p0, second, k);
    NotSuspicious(c, first.price, second, k);
  }

  /** Interleaved callers then store the two prices one after the other: both ticks were
      checked against the same old price. */
  lemma InterleavedChecksJump(c: Config, first: Tick, second: Tick, now: int, p0: real)
    requires c.enabled && Jump(c, p0, first, second, now)
    ensures var s := RunOps(c, State(map[first.symbol := p0], []), [Check(first, now), Check(second, now), Write(0)]);
      && Lookup(s.last, first.symbol) == Some(first.price) && s.passed == [second] && !InStep(c, s, first.symbol)
      && Lookup(Apply(c, s, Write(0)).last, first.symbol) == Some(second.price)
  {
    hide Suspicious, WellFormed;
    VerdictMeaning(c, Some(p0), first, now);
    VerdictMeaning(c, Some(p0), second, now);
    hide Verdict;
    var start := State(map[first.symbol := p0], []);
    var ops := [Check(first, now), Check(second, now), Write(0)];
    assert ops[..2] == [Check(first, now), Check(second, now)] && ops[..2][..1] == [Check(first, now)] && ops[..1][..0] == [];
    assert RunOps(c, start, ops[..1]) == Apply(c, start, ops[0]);
    assert RunOps(c, start, ops[..2]) == State(start.last, [first, second]);
    var s := RunOps(c, start, ops);
    assert s == State(map[first.symbol := first.price], RemoveAt([first, second], 0));
    assert s.passed == [second] && s.passed[0] == second && s.passed[0].symbol == first.symbol;
  }

  // ---- One caller at a time ---------------------------------------------------------------------------------------

  datatype Event = Validate(t: Tick, now: int) | ClearHistory

  function Final(c: Config, last: map<string, real>, events: seq<Event>): map<string, real> {
    if events == [] then last else Handle(c, Final(c, last, events[..|events| - 1]), events[|events| - 1])
  }

  /** The events that concern one symbol. */
  function Own(events: seq<Event>, symbol: string): seq<Event> {
    if events == [] then []
    else
      var e := events[|events| - 1];
      Own(events[..|events| - 1], symbol) + if Concerns(e, symbol) then [e] else []
  }

  function Handle(c: Config, last: map<string, real>, e: Event): map<string, real> {
    match e
    case Validate(t, now) => Accept(c, last, t, now)
    case ClearHistory => map[]
  }

  predicate Concerns(e: Event, symbol: string) { e.Validate? ==> e.t.symbol == symbol }

  /** One event acts on a symbol by its last price alone, and not at all if it concerns another. */
  lemma HandleOne(c: Config, a: map<string, real>, b: map<string, real>, e: Event, symbol: string)
    requires Lookup(a, symbol) == Lookup(b, symbol)
    ensures Concerns(e, symbol) ==> Lookup(Handle(c, a, e), symbol) == Lookup(Handle(c, b, e), symbol)
    ensures !Concerns(e, symbol) ==> Lookup(Handle(c, a, e), symbol) == Lookup(b, symbol)
  {
    hide Verdict;
  }

  /** The last price of a symbol after any events is that after its own events alone. */
  lemma {:induction false} SymbolsAreIndependent(c: Config, last: map<string, real>, events: seq<Event>, symbol: string)
    ensures Lookup(Final(c, last, events), symbol) == Lookup(Final(c, last, Own(events, symbol)), symbol)
  {
    hide Verdict, Accept, Handle, Concerns, Lookup;
    if events != [] {
      var e, before := events[|events| - 1], events[..|events| - 1];
      var own := Own(before, symbol);
      SymbolsAreIndependent(c, last, before, symbol);
      HandleOne(c, Final(c, last, before), Final(c, last, own), e, symbol);
      assert own + [] == own;
      assert (own + [e])[..|own|] == own;
    }
  }

  /** So the verdict on a tick is the same however the ticks of other symbols interleave. */
  lemma VerdictsAreIndependent(c: Config, last: map<string, real>, a: seq<Event>, b: seq<Event>, t: Tick, now: int)
    requires Own(a, t.symbol) == Own(b, t.symbol)
    ensures Verdict(c, Lookup(Final(c, last, a), t.symbol), t, now) == Verdict(c, Lookup(Final(c, last, b), t.symbol), t, now)
  {
    SymbolsAreIndependent(c, last, a, t.symbol);
    SymbolsAreIndependent(c, last, b, t.symbol);
  }

  /** Validating is checking and then writing what passed. */
  lemma ValidateIsCheckThenWrite(c: Config, last: map<string, real>, t: Tick, now: int)
    ensures Apply(c, Apply(c, State(last, []), Check(t, now)), Write(0)) == State(Accept(c, last, t, now), [])
  {
    hide Verdict;
  }

  // ---- The validator ----------------------------------------------------------------------------------------------

  method AllChars(s: string, ok: char -> bool) returns (all: bool)
    ensures all <==> All(s, ok)
  {
    for i := 0 to |s|
      invariant forall j :: 0 <= j < i ==> ok(s[j])
    {
      if !ok(s[i]) {
        return false;
      }
    }
    return true;
  }

  class TickValidator {
    const config: Config
    var lastPrices: map<string, real>

    constructor (config: Config)
      ensures this.config == config && lastPrices == map[]
    {
      this.config := config;
      lastPrices := map[];
    }

    method CheckSymbol(t: Tick) returns (e: Option<Error>)
      ensures e == SymbolError(config, t.symbol) && SymbolMeans(config, t.symbol, e)
    {
      FieldErrorsMean(config, t);
      if |t.symbol| == 0 {
        return Some(EmptySymbol);
      }
      if |t.symbol| > config.maxSymbolLength {
        return Some(SymbolTooLong);
      }
      var alphanumeric := AllChars(t.symbol, ALPHANUMERIC_CHAR);
      if !alphanumeric {
        return Some(InvalidSymbolChars);
      }
      var upper := AllChars(t.symbol, NOT_LOWER_CHAR);
      return if upper then None else Some(SymbolNotUppercase);
    }

    method CheckExchange(t: Tick) returns (e: Option<Error>)
      ensures e == ExchangeError(config, t.exchange) && ExchangeMeans(config, t.exchange, e)
    {
      FieldErrorsMean(config, t);
      if |t.exchange| == 0 {
        return Some(EmptyExchange);
      }
      if |t.exchange| > config.maxExchangeLength {
        return Some(ExchangeTooLong);
      }
      var valid := AllChars(t.exchange, EXCHANGE_CHAR);
      return if valid then None else Some(InvalidExchangeChars);
    }

    method CheckTradeId(t: Tick) returns (e: Option<Error>)
      ensures e == TradeIdError(config, TradeIdOf(t)) && TradeIdMeans(config, t.tradeId, e)
    {
      FieldErrorsMean(config, t);
      var id := TradeIdOf(t);
      if config.requireTradeId && |id| == 0 {
        return Some(EmptyTradeId);
      }
      if |id| == 0 {
        return None;
      }
      if |id| > config.maxTradeIdLength {
        return Some(TradeIdTooLong);
      }
      var printable := AllChars(id, PRINTABLE_CHAR);
      return if printable then None else Some(InvalidTradeIdChars);
    }

    /** The verdict, with nothing updated. */
    method ValidateReadonly(t: Tick, now: int) returns (e: Option<Error>)
      ensures e == Verdict(config, Lookup(lastPrices, t.symbol), t, now)
    {
      hide ChangePercent, SymbolError, ExchangeError, TradeIdError, SymbolMeans, ExchangeMeans, TradeIdMeans;
      if !config.enabled {
        return None;
      }
      if t.price <= 0.0 {
        return Some(PriceNotPositive);
      }
      if t.price > config.maxPrice {
        return Some(PriceOutOfBounds);
      }
      if t.size <= 0.0 {
        return Some(SizeNotPositive);
      }
      e := CheckSymbol(t);
      if e.Some? {
        return;
      }
      e := CheckExchange(t);
      if e.Some? {
        return;
      }
      e := CheckTradeId(t);
      if e.Some? {
        return;
      }
      if t.tsEvent > now + config.maxFuture {
        return Some(TimestampInFuture);
      }
      if t.tsEvent < now - config.maxAge {
        return Some(TimestampTooOld);
      }
      if t.symbol in lastPrices && lastPrices[t.symbol] > 0.0 {
        if ChangePercent(lastPrices[t.symbol], t.price) > config.MaxChange(t.symbol) {
          return Some(SuspiciousPriceChange(lastPrices[t.symbol], t.price));
        }
      }
      return None;
    }

    /** The same verdict; only an accepted tick updates, and only its own symbol. */
    method Validate(t: Tick, now: int) returns (e: Option<Error>)
      modifies this
      ensures e == Verdict(config, Lookup(old(lastPrices), t.symbol), t, now)
      ensures lastPrices == Accept(config, old(lastPrices), t, now)
      ensures lastPrices == if config.enabled && e == None then old(lastPrices)[t.symbol := t.price] else old(lastPrices)
    {
      hide Verdict;
      e := ValidateReadonly(t, now);
      if e == None && config.enabled {
        lastPrices := lastPrices[t.symbol := t.price];
      }
    }

    method ClearPriceHistory()
      modifies this
      ensures lastPrices == map[]
    {
      lastPrices := map[];
    }
  }
}
