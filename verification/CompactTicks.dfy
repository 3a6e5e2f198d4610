/** The compact tick: a fixed-size form of a tick for shared memory, with prices as
    fixed-point integers and names in NUL-padded buffers. Names are ASCII. */
module CompactTicks {
  import opened Options

  type ascii = x: int | 0 <= x < 128
  type i64 = x: int | -0x8000_0000_0000_0000 <= x <= 0x7FFF_FFFF_FFFF_FFFF
  type u64 = x: int | 0 <= x <= 0xFFFF_FFFF_FFFF_FFFF

  const SCALE: real := 100_000_000.0
  const SYMBOL_SIZE: nat := 32
  const NAME_SIZE: nat := 16

  datatype Side = Buy | Sell | Unknown

  /** A tick as it is passed on: times in nanoseconds, exact prices. */
  datatype Tick = Tick(
    tsEvent: int, tsRecv: int, symbol: seq<ascii>, exchange: seq<ascii>, price: real, size: real, side: Side,
    provider: seq<ascii>, tradeId: Option<seq<ascii>>, isBuyerMaker: Option<bool>, sequence: i64)

  datatype CompactTick = CompactTick(
    sequence: i64, tsEvent: i64, tsRecv: i64, price: i64, size: i64, symbolHash: u64, side: nat, flags: nat,
    symbol: seq<ascii>, exchange: seq<ascii>, provider: seq<ascii>)

  // ---- Fixed point -----------------------------------------------------------------------------------------------

  function Trunc(x: real): int { if x >= 0.0 then x.Floor else -((-x).Floor) }

  predicate FitsI64(n: int) { -0x8000_0000_0000_0000 <= n <= 0x7FFF_FFFF_FFFF_FFFF }

  /** An integer that does not fit becomes zero. */
  function ToI64(n: int): i64 { if FitsI64(n) then n else 0 }

  function ToFixed(x: real): i64 { ToI64(Trunc(x * SCALE)) }

  function FromFixed(n: i64): real { n as real / SCALE }

  lemma TruncIsTowardZero(x: real)
    ensures x >= 0.0 ==> 0.0 <= Trunc(x) as real <= x < Trunc(x) as real + 1.0
    ensures x <= 0.0 ==> Trunc(x) as real - 1.0 < x <= Trunc(x) as real <= 0.0
  {}

  /** Decoding an encoded price errs by less than 10^-8, toward zero, exactly when the scaled
      price fits 64 bits. */
  lemma FixedPointError(x: real)
    ensures var y := FromFixed(ToFixed(x)); -0.00000001 < x - y < 0.00000001 <==> FitsI64(Trunc(x * SCALE))
    ensures var y := FromFixed(ToFixed(x)); (x >= 0.0 ==> 0.0 <= y <= x) && (x <= 0.0 ==> x <= y <= 0.0)
  {
    var s := x * SCALE;
    TruncIsTowardZero(s);
    assert x == s / SCALE;
  }

  /** The fixed-point integer is the price in hundred-millionths, cut toward zero, or zero when it
      does not fit. */
  predicate IsFixed(n: int, x: real) {
    var scaled := x * 100_000_000.0;
    if -9_223_372_036_854_775_809.0 < scaled < 9_223_372_036_854_775_808.0
    then if x >= 0.0 then n as real <= scaled < (n + 1) as real else (n - 1) as real < scaled <= n as real
    else n == 0
  }

  lemma FixedMeans(x: real)
    ensures IsFixed(ToFixed(x), x)
  {
    TruncIsTowardZero(x * SCALE);
  }

  /** What each field of the compact form is. */
  lemma FieldsMean(hash: (seq<ascii>, seq<ascii>) -> u64, t: Tick)
    ensures var c := Encode(hash, t);
      && c.sequence == t.sequence && c.symbolHash == hash(t.symbol, t.exchange)
      && IsFixed(c.price, t.price) && IsFixed(c.size, t.size)
      && c.tsEvent == (if -9_223_372_036_854_775_808 <= t.tsEvent <= 9_223_372_036_854_775_807 then t.tsEvent else 0)
      && c.tsRecv == (if -9_223_372_036_854_775_808 <= t.tsRecv <= 9_223_372_036_854_775_807 then t.tsRecv else 0)
      && (c.side == 0 <==> t.side == Buy) && (c.side == 1 <==> t.side != Buy)
      && (c.flags == 1 <==> t.isBuyerMaker == Some(true)) && (c.flags == 0 <==> t.isBuyerMaker != Some(true))
      && Buffered(c.symbol, t.symbol, 32) && Buffered(c.exchange, t.exchange, 16) && Buffered(c.provider, t.provider, 16)
  {
    FixedMeans(t.price);
    FixedMeans(t.size);
    hide IsFixed, ToFixed;
  }

  /** The name's first size - 1 bytes at most, and NULs after them. */
  predicate Buffered(buf: seq<ascii>, name: seq<ascii>, size: nat) {
    && |buf| == size
    && forall i :: 0 <= i < size ==> buf[i] == if i < |name| && i < size - 1 then name[i] else 0
  }

  lemma FixedPointRoundTrip(n: i64)
    ensures ToFixed(FromFixed(n)) == n
  {
    assert FromFixed(n) * SCALE == n as real;
  }

  // ---- Names -------------------------------------------------------------------------------------------------------

  function Zeros(n: nat): (z: seq<ascii>)
    ensures |z| == n && forall i :: 0 <= i < n ==> z[i] == 0
  {
    seq(n, _ => 0)
  }

  /** As much of a name as leaves room for a NUL, padded with NULs. */
  function Pack(name: seq<ascii>, size: nat): (buf: seq<ascii>)
    requires size >= 1
    ensures |buf| == size
  {
    Cut(name, size) + Zeros(size - |Cut(name, size)|)
  }

  function Cut(name: seq<ascii>, size: nat): (s: seq<ascii>)
    requires size >= 1
    ensures |s| <= size - 1
  {
    if |name| < size then name else name[..size - 1]
  }

  /** Without its trailing NULs. */
  function Trim(buf: seq<ascii>): (name: seq<ascii>)
    ensures |name| <= |buf| && name == buf[..|name|] && !EndsInNul(name)
    ensures forall i :: |name| <= i < |buf| ==> buf[i] == 0
  {
    if EndsInNul(buf) then Trim(buf[..|buf| - 1]) else buf
  }

  predicate EndsInNul(s: seq<ascii>) { s != [] && s[|s| - 1] == 0 }

  /** A prefix that does not end in NUL and is followed by NULs only is the trimmed name. */
  lemma TrimIsUnique(buf: seq<ascii>, name: seq<ascii>)
    requires |name| <= |buf| && name == buf[..|name|] && !EndsInNul(name)
    requires forall i :: |name| <= i < |buf| ==> buf[i] == 0
    ensures Trim(buf) == name
  {
    var t := Trim(buf);
    assert forall i :: 0 <= i < |name| ==> name[i] == buf[i];
    assert forall i :: 0 <= i < |t| ==> t[i] == buf[i];
  }

  /** A name survives exactly when it fits and does not end in NUL. */
  lemma NameRoundTrip(name: seq<ascii>, size: nat)
    requires size >= 1
    ensures Trim(Pack(name, size)) == Trim(Cut(name, size))
    ensures Trim(Pack(name, size)) == name <==> |name| <= size - 1 && !EndsInNul(name)
  {
    var t := Trim(Cut(name, size));
    TrimIsUnique(Pack(name, size), t);
  }

  /** A buffer whose last byte is NUL is restored by packing what it decodes to. */
  lemma BufferRoundTrip(buf: seq<ascii>)
    requires EndsInNul(buf)
    ensures Pack(Trim(buf), |buf|) == buf
  {
    assert |Trim(buf)| < |buf|;
  }

  // ---- The codec ---------------------------------------------------------------------------------------------------

  /** The standard library's hash of symbol and exchange is a parameter. */
  function Encode(hash: (seq<ascii>, seq<ascii>) -> u64, t: Tick): CompactTick {
    CompactTick(t.sequence, ToI64(t.tsEvent), ToI64(t.tsRecv), ToFixed(t.price), ToFixed(t.size),
                hash(t.symbol, t.exchange), if t.side == Buy then 0 else 1, if t.isBuyerMaker == Some(true) then 1 else 0,
                Pack(t.symbol, SYMBOL_SIZE), Pack(t.exchange, NAME_SIZE), Pack(t.provider, NAME_SIZE))
  }

  function Decode(c: CompactTick): Tick {
    Tick(c.tsEvent, c.tsRecv, Trim(c.symbol), Trim(c.exchange), FromFixed(c.price), FromFixed(c.size),
         if c.side == 0 then Buy else Sell, Trim(c.provider), None, Some(c.flags % 2 == 1), c.sequence)
  }

  /** The names fit their buffers and do not end in NUL. */
  predicate NamesFit(t: Tick) {
    && |t.symbol| <= 31 && |t.exchange| <= 15 && |t.provider| <= 15
    && !EndsInNul(t.symbol) && !EndsInNul(t.exchange) && !EndsInNul(t.provider)
  }

  /** Field by field, what a tick keeps through the compact form. */
  lemma DecodeEncode(hash: (seq<ascii>, seq<ascii>) -> u64, t: Tick)
    ensures var u := Decode(Encode(hash, t));
      && (u.symbol == t.symbol && u.exchange == t.exchange && u.provider == t.provider <==> NamesFit(t))
      && (u.tsEvent == t.tsEvent <==> FitsI64(t.tsEvent)) && (u.tsRecv == t.tsRecv <==> FitsI64(t.tsRecv))
      && (-0.00000001 < t.price - u.price < 0.00000001 <==> FitsI64(Trunc(t.price * SCALE)))
      && (-0.00000001 < t.size - u.size < 0.00000001 <==> FitsI64(Trunc(t.size * SCALE)))
      && (u.side == t.side <==> t.side != Unknown) && u.sequence == t.sequence
      && (u.isBuyerMaker == Some(true) <==> t.isBuyerMaker == Some(true)) && u.tradeId == None
  {
    hide Pack, Trim, ToFixed, FromFixed, Trunc;
    NameRoundTrip(t.symbol, SYMBOL_SIZE);
    NameRoundTrip(t.exchange, NAME_SIZE);
    NameRoundTrip(t.provider, NAME_SIZE);
    FixedPointError(t.price);
    FixedPointError(t.size);
  }

  /** What encoding can produce: a side of 0 or 1, one flag, and names that end in NUL. */
  predicate Canonical(c: CompactTick) {
    && c.side <= 1 && c.flags <= 1
    && |c.symbol| == 32 && EndsInNul(c.symbol)
    && |c.exchange| == 16 && EndsInNul(c.exchange)
    && |c.provider| == 16 && EndsInNul(c.provider)
  }

  lemma EncodedIsCanonical(hash: (seq<ascii>, seq<ascii>) -> u64, t: Tick)
    ensures Canonical(Encode(hash, t))
  {}

  /** Encoding what any canonical form decodes to gives the form back, but for the hash,
      which is that of the decoded names. */
  lemma EncodeDecode(hash: (seq<ascii>, seq<ascii>) -> u64, c: CompactTick)
    requires Canonical(c)
    ensures Encode(hash, Decode(c)) == c.(symbolHash := hash(Trim(c.symbol), Trim(c.exchange)))
  {
    hide Pack, Trim, ToFixed, FromFixed, EndsInNul;
    BufferRoundTrip(c.symbol);
    BufferRoundTrip(c.exchange);
    BufferRoundTrip(c.provider);
    FixedPointRoundTrip(c.price);
    FixedPointRoundTrip(c.size);
  }

  /** So a tick is encoded again to the same fields, and to the same hash when its names fit. */
  lemma ReencodingIsStable(hash: (seq<ascii>, seq<ascii>) -> u64, t: Tick)
    ensures var c := Encode(hash, t); var d := Encode(hash, Decode(c));
      && d == c.(symbolHash := d.symbolHash) && Decode(d) == Decode(c)
      && (NamesFit(t) ==> d == c)
  {
    EncodedIsCanonical(hash, t);
    EncodeDecode(hash, Encode(hash, t));
    hide Pack, Trim, ToFixed, FromFixed, Trunc;
    NameRoundTrip(t.symbol, SYMBOL_SIZE);
    NameRoundTrip(t.exchange, NAME_SIZE);
  }

  // ---- Filling the buffers --------------------------------------------------------------------------------------------

  method FillName(name: seq<ascii>, size: nat) returns (buf: seq<ascii>)
    requires size >= 1
    ensures buf == Pack(name, size)
  {
    var bytes := new ascii[size](_ => 0);
    var len := if |name| < size - 1 then |name| else size - 1;
    for i := 0 to len
      invariant bytes[..i] == name[..i]
      invariant forall j :: i <= j < size ==> bytes[j] == 0
    {
      bytes[i] := name[i];
    }
    assert name[..len] == Cut(name, size);
    buf := bytes[..];
  }

  method FromNormalized(hash: (seq<ascii>, seq<ascii>) -> u64, t: Tick) returns (c: CompactTick)
    ensures c == Encode(hash, t)
  {
    var symbol := FillName(t.symbol, SYMBOL_SIZE);
    var exchange := FillName(t.exchange, NAME_SIZE);
    var provider := FillName(t.provider, NAME_SIZE);
    var flags := 0;
    if t.isBuyerMaker.Some? && t.isBuyerMaker.value {
      flags := 1;
    }
    c := CompactTick(t.sequence, ToI64(t.tsEvent), ToI64(t.tsRecv), ToFixed(t.price), ToFixed(t.size),
                     hash(t.symbol, t.exchange), if t.side == Buy then 0 else 1, flags, symbol, exchange, provider);
  }
}
