/**
 * Market-data value objects: prices, volumes, timestamps, OHLCV records,
 * candles, trading symbols and the supported candle intervals.
 *
 * Floating-point values are modelled as reals; a raw 64-bit float as it
 * arrives from the outside is an `F64`, which may also be NaN or infinite,
 * so that the finiteness test of the validators can be stated.
 */
module MarketData {
  import opened Wrappers

  newtype u64 = x: int | 0 <= x < 0x1_0000_0000_0000_0000

  /** A raw IEEE-754 double: a finite value or one of the non-finite ones. */
  datatype F64 = Finite(v: real) | NaN | PosInf | NegInf

  datatype Price = Price(value: real)

  datatype Volume = Volume(value: real)

  /** Why a value object could not be constructed. */
  datatype ValueError =
    | InvalidPrice(given: F64)
    | InvalidVolume(given: F64)
    | EmptySymbol

  /** A price is accepted exactly when it is finite and not negative. */
  function ValidatePrice(value: F64): (r: Result<Price, ValueError>)
    ensures r.Ok? <==> value.Finite? && value.v >= 0.0
    ensures r.Ok? ==> r.value.value == value.v
    ensures r.Err? ==> r.error == InvalidPrice(value)
  {
    if value.Finite? && value.v >= 0.0 then Ok(Price(value.v)) else Err(InvalidPrice(value))
  }

  /** A volume follows the same accept/reject rule as a price. */
  function ValidateVolume(value: F64): (r: Result<Volume, ValueError>)
    ensures r.Ok? <==> value.Finite? && value.v >= 0.0
    ensures r.Ok? ==> r.value.value == value.v
    ensures r.Err? ==> r.error == InvalidVolume(value)
  {
    if value.Finite? && value.v >= 0.0 then Ok(Volume(value.v)) else Err(InvalidVolume(value))
  }

  /** Validating the raw value of an accepted price gives that price back. */
  lemma ValidateRoundTrip(p: Price, w: Volume)
    requires p.value >= 0.0 && w.value >= 0.0
    ensures ValidatePrice(Finite(p.value)) == Ok(p)
    ensures ValidateVolume(Finite(w.value)) == Ok(w)
  {
  }

  // ---------------------------------------------------------------- Timestamp

  /** Milliseconds since the epoch, an unsigned 64-bit integer. */
  datatype Timestamp = Timestamp(millis: u64)

  function FromMillis(value: u64): (t: Timestamp)
    ensures t.millis == value
  {
    Timestamp(value)
  }

  /** The fallible constructor never actually fails. */
  function FromMilliseconds(millis: u64): (r: Result<Timestamp, ValueError>)
    ensures r.Ok? && r.value.millis == millis
  {
    Ok(Timestamp(millis))
  }

  // ---------------------------------------------------------------- OHLCV

  datatype OHLCV = OHLCV(open: Price, high: Price, low: Price, close: Price, volume: Volume)

  /**
   * The consistency check of an OHLCV record. Equivalently: open and close
   * both lie between low and high, and the volume is not negative.
   */
  function IsValidOhlcv(o: OHLCV): (r: bool)
    ensures r <==> (o.low.value <= o.open.value <= o.high.value &&
                    o.low.value <= o.close.value <= o.high.value &&
                    o.volume.value >= 0.0)
  {
    && o.high.value >= o.open.value
    && o.high.value >= o.close.value
    && o.high.value >= o.low.value
    && o.low.value <= o.open.value
    && o.low.value <= o.close.value
    && o.volume.value >= 0.0
  }

  /** One OHLCV record for one time bucket. */
  datatype Candle = Candle(timestamp: Timestamp, ohlcv: OHLCV)

  // ---------------------------------------------------------------- Symbol

  /** Upper-casing of one character (ASCII letters only). */
  function UpperChar(ch: char): (u: char)
    ensures 'a' <= ch <= 'z' ==> 'A' <= u <= 'Z' && u as int == ch as int - 32
    ensures !('a' <= ch <= 'z') ==> u == ch
  {
    if 'a' <= ch <= 'z' then (ch as int - 32) as char else ch
  }

  function ToUppercase(s: string): (r: string)
    ensures |r| == |s|
    ensures forall i :: 0 <= i < |s| ==> r[i] == UpperChar(s[i])
  {
    if s == [] then [] else [UpperChar(s[0])] + ToUppercase(s[1..])
  }

  /** Upper-casing twice is upper-casing once. */
  lemma {:induction false} ToUppercaseIdempotent(s: string)
    ensures ToUppercase(ToUppercase(s)) == ToUppercase(s)
  {
    var u := ToUppercase(s);
    var uu := ToUppercase(u);
    assert forall i :: 0 <= i < |s| ==> uu[i] == UpperChar(UpperChar(s[i])) == u[i];
  }

  datatype Symbol = Symbol(value: string)

  /** The checked constructor: the empty string is refused, anything else is upper-cased. */
  function NewSymbol(symbol: string): (r: Result<Symbol, ValueError>)
    ensures r.Err? <==> symbol == []
    ensures r.Err? ==> r.error == EmptySymbol
    ensures r.Ok? ==> |r.value.value| == |symbol| && ToUppercase(r.value.value) == r.value.value
    ensures r.Ok? ==> forall i :: 0 <= i < |symbol| ==> r.value.value[i] == UpperChar(symbol[i])
  {
    if symbol == [] then Err(EmptySymbol)
    else
      ToUppercaseIdempotent(symbol);
      Ok(Symbol(ToUppercase(symbol)))
  }

  /** The conversion from a string slice, which never refuses. */
  function SymbolFrom(value: string): (s: Symbol)
    ensures |s.value| == |value| && ToUppercase(s.value) == s.value
    ensures forall i :: 0 <= i < |value| ==> s.value[i] == UpperChar(value[i])
  {
    ToUppercaseIdempotent(value);
    Symbol(ToUppercase(value))
  }

  /** Both constructors agree on non-empty input; only the checked one refuses "". */
  lemma SymbolConstructorsAgree(symbol: string)
    ensures symbol != [] ==> NewSymbol(symbol) == Ok(SymbolFrom(symbol))
    ensures NewSymbol([]).Err? && SymbolFrom([]) == Symbol([])
  {
  }

  /** An already upper-case string is stored unchanged. */
  lemma {:induction false} UppercaseFixedPoint(s: string)
    requires forall i :: 0 <= i < |s| ==> !('a' <= s[i] <= 'z')
    ensures ToUppercase(s) == s
  {
    if s != [] {
      UppercaseFixedPoint(s[1..]);
    }
  }

  /** The supported trading pairs, in display order. */
  function DefaultSymbols(): (r: seq<Symbol>)
    ensures r == [Symbol("BTCUSDT"), Symbol("ETHUSDT"), Symbol("SOLUSDT")]
  {
    UppercaseFixedPoint("BTCUSDT");
    UppercaseFixedPoint("ETHUSDT");
    UppercaseFixedPoint("SOLUSDT");
    [SymbolFrom("BTCUSDT"), SymbolFrom("ETHUSDT"), SymbolFrom("SOLUSDT")]
  }

  // ---------------------------------------------------------------- TimeInterval

  datatype TimeInterval =
    | TwoSeconds
    | OneMinute
    | FiveMinutes
    | FifteenMinutes
    | OneHour
    | FourHours
    | OneDay
    | OneWeek
    | OneMonth

  /** Position of the variant in declaration order. */
  function Ordinal(t: TimeInterval): nat
  {
    match t
    case TwoSeconds => 0
    case OneMinute => 1
    case FiveMinutes => 2
    case FifteenMinutes => 3
    case OneHour => 4
    case FourHours => 5
    case OneDay => 6
    case OneWeek => 7
    case OneMonth => 8
  }

  /** The exchange's name of an interval (also its display and serialised form). */
  function BinanceName(t: TimeInterval): (r: string)
    ensures 2 <= |r| <= 3
    ensures forall k :: 0 <= k < |r| - 1 ==> '0' <= r[k] <= '9'
    ensures r[|r| - 1] in {'s', 'm', 'h', 'd', 'w', 'M'}
  {
    match t
    case TwoSeconds => "2s"
    case OneMinute => "1m"
    case FiveMinutes => "5m"
    case FifteenMinutes => "15m"
    case OneHour => "1h"
    case FourHours => "4h"
    case OneDay => "1d"
    case OneWeek => "1w"
    case OneMonth => "1M"
  }

  /** Parsing a name: an exact, case-sensitive match against the nine names. */
  function ParseInterval(s: string): (r: Option<TimeInterval>)
    ensures r.Some? ==> BinanceName(r.value) == s
  {
    if s == "2s" then Some(TwoSeconds)
    else if s == "1m" then Some(OneMinute)
    else if s == "5m" then Some(FiveMinutes)
    else if s == "15m" then Some(FifteenMinutes)
    else if s == "1h" then Some(OneHour)
    else if s == "4h" then Some(FourHours)
    else if s == "1d" then Some(OneDay)
    else if s == "1w" then Some(OneWeek)
    else if s == "1M" then Some(OneMonth)
    else None
  }

  /** Parsing the name of an interval yields that interval. */
  lemma ParseName(t: TimeInterval)
    ensures ParseInterval(BinanceName(t)) == Some(t)
  {
    match t
    case TwoSeconds =>
    case OneMinute =>
    case FiveMinutes =>
    case FifteenMinutes =>
    case OneHour =>
    case FourHours =>
    case OneDay =>
    case OneWeek =>
    case OneMonth =>
      assert BinanceName(t) != "1m";
  }

  /** Distinct intervals have distinct names; in particular "1m" and "1M" differ. */
  lemma NamesDistinct(a: TimeInterval, b: TimeInterval)
    requires a != b
    ensures BinanceName(a) != BinanceName(b)
  {
    ParseName(a);
    ParseName(b);
  }

  lemma MinuteAndMonthDiffer()
    ensures BinanceName(OneMinute) != BinanceName(OneMonth)
    ensures ParseInterval("1m") == Some(OneMinute) && ParseInterval("1M") == Some(OneMonth)
  {
    NamesDistinct(OneMinute, OneMonth);
  }

  /** Length of the interval in milliseconds. */
  function DurationMs(t: TimeInterval): (r: u64)
    ensures r > 0 && r % 1000 == 0
  {
    match t
    case TwoSeconds => 2 * 1000
    case OneMinute => 60 * 1000
    case FiveMinutes => 5 * 60 * 1000
    case FifteenMinutes => 15 * 60 * 1000
    case OneHour => 60 * 60 * 1000
    case FourHours => 4 * 60 * 60 * 1000
    case OneDay => 24 * 60 * 60 * 1000
    case OneWeek => 7 * 24 * 60 * 60 * 1000
    case OneMonth => 30 * 24 * 60 * 60 * 1000
  }

  /** The durations written out as plain numbers. */
  lemma DurationValues()
    ensures DurationMs(TwoSeconds) == 2000
    ensures DurationMs(OneMinute) == 60000
    ensures DurationMs(FiveMinutes) == 300000
    ensures DurationMs(FifteenMinutes) == 900000
    ensures DurationMs(OneHour) == 3600000
    ensures DurationMs(FourHours) == 14400000
    ensures DurationMs(OneDay) == 86400000
    ensures DurationMs(OneWeek) == 604800000
    ensures DurationMs(OneMonth) == 2592000000
  {
  }

  /** Durations grow strictly in declaration order. */
  lemma DurationIncreasing(a: TimeInterval, b: TimeInterval)
    requires Ordinal(a) < Ordinal(b)
    ensures DurationMs(a) < DurationMs(b)
  {
    DurationValues();
  }
}
