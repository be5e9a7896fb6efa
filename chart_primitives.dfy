/**
 * Shared vocabulary of the geometry synthesis: vertices in normalised
 * device coordinates, the six-vertex quad every chart element is drawn
 * with, the right-aligned horizontal slots and the vertical price band.
 *
 * All f32/f64 arithmetic is modelled with exact reals.
 */
module ChartPrimitives {
  import opened MarketData

  /** Number of horizontal slots the chart is laid out for. */
  const BASE_CANDLES: real := 300.0

  /** Width of one slot in normalised device coordinates (the NDC width is 2). */
  const STEP: real := 2.0 / 300.0

  function MinR(a: real, b: real): real { if a <= b then a else b }

  function MaxR(a: real, b: real): real { if a >= b then a else b }

  function AbsR(a: real): real { if a < 0.0 then -a else a }

  /** Clamping as the source's `clamp(lo, hi)` does it. */
  function ClampR(v: real, lo: real, hi: real): (r: real)
    requires lo <= hi
    ensures lo <= r <= hi
    ensures lo <= v <= hi ==> r == v
  {
    if v < lo then lo else if v > hi then hi else v
  }

  function Open(c: Candle): real { c.ohlcv.open.value }
  function High(c: Candle): real { c.ohlcv.high.value }
  function Low(c: Candle): real { c.ohlcv.low.value }
  function Close(c: Candle): real { c.ohlcv.close.value }
  function Vol(c: Candle): real { c.ohlcv.volume.value }

  /** The indicator lines the synthesis draws. */
  datatype IndicatorType = SMA20 | EMA12

  /** What a vertex belongs to; the shader colours it by this tag. */
  datatype VertexKind =
    | Body(bullish: bool)
    | Wick
    | CurrentPrice
    | Grid
    | VolumeBar(bullish: bool)
    | IndicatorLine(indicator: IndicatorType)

  datatype Vertex = Vertex(x: real, y: real, kind: VertexKind)

  datatype Point = Point(x: real, y: real)

  /** The parts of the renderer's state that the synthesis reads. */
  datatype RendererState = RendererState(width: nat, height: nat, zoomLevel: real, panOffset: real)

  /** The price bounds of the chart's viewport (both 0 or equal when not pinned). */
  datatype Viewport = Viewport(minPrice: real, maxPrice: real)

  /**
   * An axis-aligned rectangle as two triangles:
   * (l,b) (r,b) (l,t) and (r,b) (r,t) (l,t).
   */
  function Quad(left: real, right: real, bottom: real, top: real, kind: VertexKind): (q: seq<Vertex>)
    ensures |q| == 6
    ensures forall i :: 0 <= i < 6 ==> q[i].kind == kind
    ensures forall i :: 0 <= i < 6 ==> (q[i].x == left || q[i].x == right) && (q[i].y == bottom || q[i].y == top)
    ensures q[0] == Vertex(left, bottom, kind) && q[4] == Vertex(right, top, kind)
  {
    [ Vertex(left, bottom, kind), Vertex(right, bottom, kind), Vertex(left, top, kind),
      Vertex(right, bottom, kind), Vertex(right, top, kind), Vertex(left, top, kind) ]
  }

  /**
   * Centre of slot `index` when `visibleLen` candles are shown, right-aligned.
   * Every shown candle lies left of the right edge; with at most 300 shown,
   * right of the left edge too.
   */
  function CandleX(index: nat, visibleLen: nat): (x: real)
    ensures index < visibleLen ==> x < 1.0
    ensures visibleLen <= 300 ==> x > -1.0
  {
    -1.0 + (BASE_CANDLES - visibleLen as real) * STEP + (index as real + 0.5) * STEP
  }

  /** Neighbouring slots are exactly one step apart. */
  lemma CandleXSpacing(i: nat, n: nat)
    ensures CandleX(i + 1, n) - CandleX(i, n) == 2.0 / 300.0
  {
  }

  /** The newest candle always sits in the last slot, whatever the window size. */
  lemma CandleXRightAligned(n: nat)
    requires n > 0
    ensures CandleX(n - 1, n) == 1.0 - 1.0 / 300.0
  {
  }

  /** Vertical position of a price in the candle band [-0.5, 0.8]. */
  function PriceY(price: real, minPrice: real, maxPrice: real): (y: real)
    requires maxPrice != minPrice
    ensures minPrice < maxPrice && minPrice <= price <= maxPrice ==> -0.5 <= y <= 0.8
  {
    var t := (price - minPrice) / (maxPrice - minPrice);
    assert minPrice < maxPrice && minPrice <= price <= maxPrice ==> 0.0 <= t <= 1.0 by {
      if minPrice < maxPrice && minPrice <= price <= maxPrice {
        FractionInUnit(price - minPrice, maxPrice - minPrice);
      }
    }
    -0.5 + t * 1.3
  }

  /** A part of a positive whole is a fraction in [0, 1]. */
  lemma FractionInUnit(part: real, whole: real)
    requires 0.0 <= part <= whole && whole > 0.0
    ensures 0.0 <= part / whole <= 1.0
  {
    var f := part / whole;
    assert f * whole == part;
  }

  /**
   * With an increasing range the mapping preserves order, sends the range
   * onto [-0.5, 0.8], and so keeps prices of the range inside that band.
   */
  lemma PriceYMonotone(a: real, b: real, minPrice: real, maxPrice: real)
    requires maxPrice > minPrice
    ensures PriceY(a, minPrice, maxPrice) <= PriceY(b, minPrice, maxPrice) <==> a <= b
    ensures PriceY(minPrice, minPrice, maxPrice) == -0.5 && PriceY(maxPrice, minPrice, maxPrice) == 0.8
  {
    var range := maxPrice - minPrice;
    assert (b - minPrice) / range - (a - minPrice) / range == (b - a) / range;
    assert (b - a) / range >= 0.0 <==> b - a >= 0.0;
    assert (maxPrice - minPrice) / range == 1.0;
  }
}
