/**
 * The elements drawn beside the candles: the background grid, the volume
 * bars in the lower band and the SMA-20 / EMA-12 moving-average lines.
 *
 * Each element has a specification function (what the vertex list is) and
 * a method that builds the list with the loops of the renderer, proved
 * equal to it.
 */
module ChartOverlays {
  import opened MarketData
  import opened ChartPrimitives

  // ================================================================ grid

  /** Horizontal grid levels are drawn at i/8 of the price range for i in 1..7. */
  const NUM_PRICE_LINES: nat := 8

  /** Vertical grid lines are drawn at i/10 of the window for i in 1..9. */
  const NUM_VERTICAL_LINES: nat := 10

  const GRID_THICKNESS: real := 0.001

  /** The price of grid level `i`: i eighths of the way up the price range. */
  function GridLevel(i: nat, minPrice: real, maxPrice: real): real
  {
    minPrice + (maxPrice - minPrice) * i as real / NUM_PRICE_LINES as real
  }

  /** The horizontal line at level `i` of the price range. */
  function HorizontalLine(i: nat, minPrice: real, maxPrice: real): seq<Vertex>
    requires maxPrice != minPrice
  {
    var y := PriceY(GridLevel(i, minPrice, maxPrice), minPrice, maxPrice);
    Quad(-1.0, 1.0, y - GRID_THICKNESS, y + GRID_THICKNESS, Grid)
  }

  /** Horizontal lines 1 .. upTo-1, in order. */
  function HorizontalLines(upTo: nat, minPrice: real, maxPrice: real): seq<Vertex>
    requires maxPrice != minPrice
  {
    if upTo <= 1 then []
    else HorizontalLines(upTo - 1, minPrice, maxPrice) + HorizontalLine(upTo - 1, minPrice, maxPrice)
  }

  /** The vertical line number `i`, at candle i * (count / 10), when that candle exists. */
  function VerticalLine(i: nat, candleCount: nat): seq<Vertex>
  {
    var candleIndex := i * (candleCount / NUM_VERTICAL_LINES);
    if candleIndex < candleCount then
      var x := CandleX(candleIndex, candleCount);
      Quad(x - GRID_THICKNESS, x + GRID_THICKNESS, -1.0, 0.8, Grid)
    else []
  }

  /** Vertical lines 1 .. upTo-1, in order. */
  function VerticalLines(upTo: nat, candleCount: nat): seq<Vertex>
  {
    if upTo <= 1 then [] else VerticalLines(upTo - 1, candleCount) + VerticalLine(upTo - 1, candleCount)
  }

  function GridLines(minPrice: real, maxPrice: real, candleCount: nat): seq<Vertex>
    requires maxPrice != minPrice
  {
    HorizontalLines(NUM_PRICE_LINES, minPrice, maxPrice)
      + (if candleCount > 0 then VerticalLines(NUM_VERTICAL_LINES, candleCount) else [])
  }

  /** Grid level i lands at -0.5 + 1.3 * i / 8 whatever the price range. */
  lemma GridLevelEvenlySpaced(i: nat, minPrice: real, maxPrice: real)
    requires maxPrice != minPrice
    ensures PriceY(GridLevel(i, minPrice, maxPrice), minPrice, maxPrice) == -0.5 + (i as real / 8.0) * 1.3
  {
    var range := maxPrice - minPrice;
    var f := i as real / 8.0;
    var level := GridLevel(i, minPrice, maxPrice);
    assert level - minPrice == range * f;
    assert (level - minPrice) / range == f;
    assert PriceY(level, minPrice, maxPrice) == -0.5 + f * 1.3;
  }

  /** Every one of the nine vertical lines falls on an existing candle. */
  lemma VerticalLineDrawn(i: nat, candleCount: nat)
    requires 1 <= i < NUM_VERTICAL_LINES && candleCount > 0
    ensures |VerticalLine(i, candleCount)| == 6
  {
    var q := candleCount / NUM_VERTICAL_LINES;
    if q > 0 {
      assert i * q <= 9 * q;
      assert 10 * q <= candleCount;
    }
  }

  lemma {:induction false} HorizontalLinesCount(upTo: nat, minPrice: real, maxPrice: real)
    requires maxPrice != minPrice
    ensures |HorizontalLines(upTo, minPrice, maxPrice)| == if upTo <= 1 then 0 else 6 * (upTo - 1)
  {
    if upTo > 1 {
      HorizontalLinesCount(upTo - 1, minPrice, maxPrice);
    }
  }

  lemma {:induction false} VerticalLinesCount(upTo: nat, candleCount: nat)
    requires upTo <= NUM_VERTICAL_LINES && candleCount > 0
    ensures |VerticalLines(upTo, candleCount)| == if upTo <= 1 then 0 else 6 * (upTo - 1)
  {
    if upTo > 1 {
      VerticalLinesCount(upTo - 1, candleCount);
      VerticalLineDrawn(upTo - 1, candleCount);
    }
  }

  /** The grid has 7 horizontal quads, plus 9 vertical ones once there is a candle. */
  lemma GridCount(minPrice: real, maxPrice: real, candleCount: nat)
    requires maxPrice != minPrice
    ensures |GridLines(minPrice, maxPrice, candleCount)| == if candleCount > 0 then 96 else 42
  {
    HorizontalLinesCount(NUM_PRICE_LINES, minPrice, maxPrice);
    if candleCount > 0 {
      VerticalLinesCount(NUM_VERTICAL_LINES, candleCount);
    }
  }

  /** Builds the grid with the renderer's two loops. */
  method CreateGridLines(minPrice: real, maxPrice: real, candleCount: nat) returns (vertices: seq<Vertex>)
    requires maxPrice != minPrice
    ensures vertices == GridLines(minPrice, maxPrice, candleCount)
    ensures |vertices| == if candleCount > 0 then 96 else 42
  {
    vertices := [];
    for i := 1 to NUM_PRICE_LINES
      invariant vertices == HorizontalLines(i, minPrice, maxPrice)
    {
      vertices := vertices + HorizontalLine(i, minPrice, maxPrice);
    }
    if candleCount > 0 {
      var vertical := CreateVerticalLines(candleCount);
      vertices := vertices + vertical;
    }
    GridCount(minPrice, maxPrice, candleCount);
  }

  /** The second loop of the grid builder: the vertical lines of a non-empty window. */
  method CreateVerticalLines(candleCount: nat) returns (vertices: seq<Vertex>)
    requires candleCount > 0
    ensures vertices == VerticalLines(NUM_VERTICAL_LINES, candleCount)
  {
    vertices := [];
    var verticalStep := candleCount / NUM_VERTICAL_LINES;
    for i := 1 to NUM_VERTICAL_LINES
      invariant vertices == VerticalLines(i, candleCount)
    {
      var line := VerticalLineAt(i, verticalStep, candleCount);
      vertices := vertices + line;
    }
  }

  /** One iteration of the vertical loop: a line only where its candle exists. */
  method VerticalLineAt(i: nat, verticalStep: nat, candleCount: nat) returns (line: seq<Vertex>)
    requires verticalStep == candleCount / NUM_VERTICAL_LINES
    ensures line == VerticalLine(i, candleCount)
  {
    line := [];
    var candleIndex := i * verticalStep;
    if candleIndex < candleCount {
      var x := CandleX(candleIndex, candleCount);
      line := Quad(x - GRID_THICKNESS, x + GRID_THICKNESS, -1.0, 0.8, Grid);
    }
  }

  // ================================================================ volume bars

  const VOLUME_BOTTOM: real := -1.0
  const VOLUME_TOP: real := -0.6

  /** The largest volume of the slice, folding from 0. */
  function MaxVolume(s: seq<Candle>): real
  {
    if s == [] then 0.0 else MaxR(MaxVolume(s[..|s| - 1]), Vol(s[|s| - 1]))
  }

  lemma {:induction false} MaxVolumeBounds(s: seq<Candle>)
    ensures MaxVolume(s) >= 0.0
    ensures forall k :: 0 <= k < |s| ==> Vol(s[k]) <= MaxVolume(s)
  {
    if s != [] {
      var init := s[..|s| - 1];
      MaxVolumeBounds(init);
      assert forall k :: 0 <= k < |s| - 1 ==> s[k] == init[k];
    }
  }

  function BarWidth(zoomLevel: real): real
  {
    MaxR(STEP * ClampR(zoomLevel, 0.1, 10.0) * 0.8, 0.002)
  }

  /** Horizontal centre of bar i: its candle's slot shifted by the pan, kept on screen. */
  function BarCenterX(i: nat, candleCount: nat, panOffset: real): (x: real)
    ensures -1.0 <= x <= 1.0
  {
    ClampR(CandleX(i, candleCount) + panOffset * 0.001, -1.0, 1.0)
  }

  /** Bar height is the volume as a fraction of the band height. */
  function BarTop(c: Candle, maxVolume: real): real
    requires maxVolume > 0.0
  {
    VOLUME_BOTTOM + (VOLUME_TOP - VOLUME_BOTTOM) * (Vol(c) / maxVolume)
  }

  lemma BarTopInBand(c: Candle, maxVolume: real)
    requires maxVolume > 0.0 && 0.0 <= Vol(c) <= maxVolume
    ensures VOLUME_BOTTOM <= BarTop(c, maxVolume) <= VOLUME_TOP
  {
    assert Vol(c) / maxVolume <= 1.0;
  }

  function VolumeBarQuad(s: seq<Candle>, i: nat, maxVolume: real, r: RendererState): seq<Vertex>
    requires i < |s| && maxVolume > 0.0
  {
    var c := s[i];
    var x := BarCenterX(i, |s|, r.panOffset);
    var halfWidth := BarWidth(r.zoomLevel) * 0.5;
    Quad(x - halfWidth, x + halfWidth, VOLUME_BOTTOM, BarTop(c, maxVolume), VolumeBar(Close(c) >= Open(c)))
  }

  /** Bars for candles 0 .. k-1. */
  function VolumeBarsUpTo(s: seq<Candle>, k: nat, maxVolume: real, r: RendererState): seq<Vertex>
    requires k <= |s| && maxVolume > 0.0
  {
    if k == 0 then [] else VolumeBarsUpTo(s, k - 1, maxVolume, r) + VolumeBarQuad(s, k - 1, maxVolume, r)
  }

  function VolumeBars(s: seq<Candle>, r: RendererState): seq<Vertex>
  {
    if s == [] then []
    else
      var maxVolume := MaxVolume(s);
      if maxVolume <= 0.0 then [] else VolumeBarsUpTo(s, |s|, maxVolume, r)
  }

  /**
   * Bars for candles 0 .. k-1: six vertices each, bar j occupying
   * vertices 6j .. 6j+5, coloured by its own candle, and every vertex in the
   * volume band when volumes are not negative.
   */
  lemma {:induction false} VolumeBarsUpToShape(s: seq<Candle>, k: nat, maxVolume: real, r: RendererState)
    requires k <= |s| && maxVolume > 0.0
    requires forall j :: 0 <= j < |s| ==> 0.0 <= Vol(s[j]) <= maxVolume
    ensures var v := VolumeBarsUpTo(s, k, maxVolume, r);
            && |v| == 6 * k
            && (forall m :: 0 <= m < |v| ==> VOLUME_BOTTOM <= v[m].y <= VOLUME_TOP)
            && (forall m :: 0 <= m < |v| ==> v[m].kind == VolumeBar(Close(s[m / 6]) >= Open(s[m / 6])))
  {
    if k > 0 {
      VolumeBarsUpToShape(s, k - 1, maxVolume, r);
      BarTopInBand(s[k - 1], maxVolume);
      var prev := VolumeBarsUpTo(s, k - 1, maxVolume, r);
      var q := VolumeBarQuad(s, k - 1, maxVolume, r);
      var v := prev + q;
      forall m | 0 <= m < |v|
        ensures VOLUME_BOTTOM <= v[m].y <= VOLUME_TOP
        ensures v[m].kind == VolumeBar(Close(s[m / 6]) >= Open(s[m / 6]))
      {
        if m < |prev| {
          assert v[m] == prev[m];
        } else {
          assert v[m] == q[m - |prev|];
          assert m / 6 == k - 1;
        }
      }
    }
  }

  /**
   * No bars for an empty slice or one without volume; otherwise six vertices
   * per candle, all inside the band [-1.0, -0.6], each bar coloured by its candle.
   */
  lemma VolumeBarsShape(s: seq<Candle>, r: RendererState)
    requires forall j :: 0 <= j < |s| ==> Vol(s[j]) >= 0.0
    ensures var v := VolumeBars(s, r);
            && (s == [] || MaxVolume(s) <= 0.0 ==> v == [])
            && (s != [] && MaxVolume(s) > 0.0 ==> |v| == 6 * |s|)
            && (forall m :: 0 <= m < |v| ==> VOLUME_BOTTOM <= v[m].y <= VOLUME_TOP)
            && (forall m :: 0 <= m < |v| ==> v[m].kind == VolumeBar(Close(s[m / 6]) >= Open(s[m / 6])))
  {
    MaxVolumeBounds(s);
    if s != [] && MaxVolume(s) > 0.0 {
      VolumeBarsUpToShape(s, |s|, MaxVolume(s), r);
    }
  }

  /** Builds the volume bars with the renderer's loop. */
  method CreateVolumeBars(s: seq<Candle>, r: RendererState) returns (vertices: seq<Vertex>)
    ensures vertices == VolumeBars(s, r)
    ensures s != [] && MaxVolume(s) > 0.0 ==> |vertices| == 6 * |s|
  {
    if s == [] {
      return [];
    }
    var maxVolume := MaxVolume(s);
    if maxVolume <= 0.0 {
      return [];
    }
    var halfWidth := BarWidth(r.zoomLevel) * 0.5;
    vertices := [];
    for i := 0 to |s|
      invariant vertices == VolumeBarsUpTo(s, i, maxVolume, r)
      invariant |vertices| == 6 * i
    {
      var c := s[i];
      var x := ClampR(CandleX(i, |s|) + r.panOffset * 0.001, -1.0, 1.0);
      var barTop := VOLUME_BOTTOM + (VOLUME_TOP - VOLUME_BOTTOM) * (Vol(c) / maxVolume);
      var isBullish := Close(c) >= Open(c);
      vertices := vertices + Quad(x - halfWidth, x + halfWidth, VOLUME_BOTTOM, barTop, VolumeBar(isBullish));
    }
  }

  // ================================================================ moving averages

  const SMA_PERIOD: nat := 20
  const EMA_PERIOD: nat := 12

  /** EMA smoothing factor 2 / (12 + 1). */
  const EMA_K: real := 2.0 / 13.0

  const LINE_THICKNESS: real := 0.003

  /** The sum of the closes of candles lo .. hi-1. */
  function SumCloses(s: seq<Candle>, lo: nat, hi: nat): real
    requires lo <= hi <= |s|
    decreases hi - lo
  {
    if lo == hi then 0.0 else SumCloses(s, lo, hi - 1) + Close(s[hi - 1])
  }

  /** Closes of candles lo .. hi-1 all at least `bound` sum to at least (hi - lo) * bound. */
  lemma {:induction false} SumAtLeast(s: seq<Candle>, lo: nat, hi: nat, bound: real)
    requires lo <= hi <= |s|
    requires forall j :: lo <= j < hi ==> Close(s[j]) >= bound
    ensures SumCloses(s, lo, hi) >= (hi - lo) as real * bound
    decreases hi - lo
  {
    if lo < hi {
      SumAtLeast(s, lo, hi - 1, bound);
    }
  }

  /** Closes of candles lo .. hi-1 all at most `bound` sum to at most (hi - lo) * bound. */
  lemma {:induction false} SumAtMost(s: seq<Candle>, lo: nat, hi: nat, bound: real)
    requires lo <= hi <= |s|
    requires forall j :: lo <= j < hi ==> Close(s[j]) <= bound
    ensures SumCloses(s, lo, hi) <= (hi - lo) as real * bound
    decreases hi - lo
  {
    if lo < hi {
      SumAtMost(s, lo, hi - 1, bound);
    }
  }

  lemma SumNonNegative(s: seq<Candle>, lo: nat, hi: nat)
    requires lo <= hi <= |s|
    ensures (forall j :: lo <= j < hi ==> Close(s[j]) >= 0.0) ==> SumCloses(s, lo, hi) >= 0.0
  {
    if forall j :: lo <= j < hi ==> Close(s[j]) >= 0.0 {
      SumAtLeast(s, lo, hi, 0.0);
    }
  }

  /** The mean close of the 20 candles ending at index i; not negative when those closes are not. */
  function SmaAt(s: seq<Candle>, i: nat): (r: real)
    requires SMA_PERIOD - 1 <= i < |s|
    ensures (forall j :: i + 1 - SMA_PERIOD <= j <= i ==> Close(s[j]) >= 0.0) ==> r >= 0.0
  {
    SumNonNegative(s, i + 1 - SMA_PERIOD, i + 1);
    SumCloses(s, i + 1 - SMA_PERIOD, i + 1) / SMA_PERIOD as real
  }

  /**
   * The EMA after candle i, seeded with the first close; not negative when
   * the closes so far are not.
   */
  function EmaAt(s: seq<Candle>, i: nat): (r: real)
    requires i < |s|
    ensures (forall j :: 0 <= j <= i ==> Close(s[j]) >= 0.0) ==> r >= 0.0
  {
    if i == 0 then Close(s[0]) else Close(s[i]) * EMA_K + EmaAt(s, i - 1) * (1.0 - EMA_K)
  }

  /** The SMA lies between the smallest and the largest of the 20 closes it averages. */
  lemma SmaWithinCloses(s: seq<Candle>, i: nat, lo: real, hi: real)
    requires SMA_PERIOD - 1 <= i < |s|
    requires forall j :: i + 1 - SMA_PERIOD <= j <= i ==> lo <= Close(s[j]) <= hi
    ensures lo <= SmaAt(s, i) <= hi
  {
    SumAtLeast(s, i + 1 - SMA_PERIOD, i + 1, lo);
    SumAtMost(s, i + 1 - SMA_PERIOD, i + 1, hi);
  }

  /** The EMA never leaves the range of the closes seen so far. */
  lemma {:induction false} EmaWithinCloses(s: seq<Candle>, i: nat, lo: real, hi: real)
    requires i < |s|
    requires forall j :: 0 <= j <= i ==> lo <= Close(s[j]) <= hi
    ensures lo <= EmaAt(s, i) <= hi
  {
    if i > 0 {
      EmaWithinCloses(s, i - 1, lo, hi);
    }
  }

  /** Horizontal position of the point for candle i: slots spread over the full width. */
  function LineX(i: nat, candleCount: nat): real
    requires candleCount > 0
  {
    -1.0 + (i as real + 0.5) * (2.0 / candleCount as real)
  }

  /** Vertical position of an indicator value in the band [-0.8, 0.8]. */
  function PriceToNdc(price: real, minPrice: real, maxPrice: real): (y: real)
    requires maxPrice != minPrice
    ensures minPrice < maxPrice && minPrice <= price <= maxPrice ==> -0.8 <= y <= 0.8
  {
    var t := (price - minPrice) / (maxPrice - minPrice);
    assert minPrice < maxPrice && minPrice <= price <= maxPrice ==> 0.0 <= t <= 1.0 by {
      if minPrice < maxPrice && minPrice <= price <= maxPrice {
        FractionInUnit(price - minPrice, maxPrice - minPrice);
      }
    }
    -0.8 + t * 1.6
  }

  lemma DivSelf(d: real)
    requires d != 0.0
    ensures d / d == 1.0
  {
  }

  /**
   * The indicator lines use a taller band than the candles: for an increasing
   * range an average is drawn at the height of the same price on the candle
   * axis only at the top of the range.
   */
  lemma IndicatorBandDiffers(price: real, minPrice: real, maxPrice: real)
    requires minPrice < maxPrice
    ensures PriceToNdc(price, minPrice, maxPrice) == PriceY(price, minPrice, maxPrice) <==> price == maxPrice
  {
    var d := maxPrice - minPrice;
    var t := (price - minPrice) / d;
    assert t * d == price - minPrice;
    assert PriceToNdc(price, minPrice, maxPrice) - PriceY(price, minPrice, maxPrice) == 0.3 * t - 0.3;
    if t == 1.0 {
      assert price - minPrice == d;
    }
    if price == maxPrice {
      assert t == d / d;
      DivSelf(d);
    }
  }

  /** The SMA point drawn for candle i. */
  function SmaPoint(s: seq<Candle>, i: nat, minPrice: real, maxPrice: real): Point
    requires SMA_PERIOD - 1 <= i < |s| && maxPrice != minPrice
  {
    Point(LineX(i, |s|), PriceToNdc(SmaAt(s, i), minPrice, maxPrice))
  }

  /** The EMA point drawn for candle i. */
  function EmaPoint(s: seq<Candle>, i: nat, minPrice: real, maxPrice: real): Point
    requires i < |s| && maxPrice != minPrice
  {
    Point(LineX(i, |s|), PriceToNdc(EmaAt(s, i), minPrice, maxPrice))
  }

  /** SMA points for candles 19 .. upTo-1. */
  function SmaPoints(s: seq<Candle>, upTo: nat, minPrice: real, maxPrice: real): seq<Point>
    requires upTo <= |s| && maxPrice != minPrice
  {
    if upTo < SMA_PERIOD then []
    else SmaPoints(s, upTo - 1, minPrice, maxPrice) + [SmaPoint(s, upTo - 1, minPrice, maxPrice)]
  }

  /** EMA points for candles 11 .. upTo-1. */
  function EmaPoints(s: seq<Candle>, upTo: nat, minPrice: real, maxPrice: real): seq<Point>
    requires upTo <= |s| && maxPrice != minPrice
  {
    if upTo < EMA_PERIOD then []
    else EmaPoints(s, upTo - 1, minPrice, maxPrice) + [EmaPoint(s, upTo - 1, minPrice, maxPrice)]
  }

  /**
   * The indicator geometry. The quads of a polyline come from a builder
   * the synthesis calls but does not define, so it is a parameter here.
   */
  function MovingAverages(s: seq<Candle>, minPrice: real, maxPrice: real,
                          lineVertices: (seq<Point>, IndicatorType, real) -> seq<Vertex>): seq<Vertex>
    requires maxPrice != minPrice
  {
    if |s| < SMA_PERIOD then []
    else
      var sma := SmaPoints(s, |s|, minPrice, maxPrice);
      var ema := if |s| >= EMA_PERIOD then EmaPoints(s, |s|, minPrice, maxPrice) else [];
      (if sma != [] then lineVertices(sma, SMA20, LINE_THICKNESS) else [])
        + (if ema != [] then lineVertices(ema, EMA12, LINE_THICKNESS) else [])
  }

  /** One point per candle from index 19 on; point j belongs to candle j + 19. */
  lemma {:induction false} SmaPointsShape(s: seq<Candle>, upTo: nat, minPrice: real, maxPrice: real)
    requires upTo <= |s| && maxPrice != minPrice
    ensures var p := SmaPoints(s, upTo, minPrice, maxPrice);
            && |p| == (if upTo < SMA_PERIOD then 0 else upTo - (SMA_PERIOD - 1))
            && forall j :: 0 <= j < |p| ==> p[j] == SmaPoint(s, j + SMA_PERIOD - 1, minPrice, maxPrice)
  {
    if upTo >= SMA_PERIOD {
      SmaPointsShape(s, upTo - 1, minPrice, maxPrice);
      var prev := SmaPoints(s, upTo - 1, minPrice, maxPrice);
      var p := prev + [SmaPoint(s, upTo - 1, minPrice, maxPrice)];
      assert SmaPoints(s, upTo, minPrice, maxPrice) == p;
      forall j | 0 <= j < |p| ensures p[j] == SmaPoint(s, j + SMA_PERIOD - 1, minPrice, maxPrice) {
        if j < |prev| {
          assert p[j] == prev[j];
        }
      }
    }
  }

  /** One point per candle from index 11 on; point j belongs to candle j + 11. */
  lemma {:induction false} EmaPointsShape(s: seq<Candle>, upTo: nat, minPrice: real, maxPrice: real)
    requires upTo <= |s| && maxPrice != minPrice
    ensures var p := EmaPoints(s, upTo, minPrice, maxPrice);
            && |p| == (if upTo < EMA_PERIOD then 0 else upTo - (EMA_PERIOD - 1))
            && forall j :: 0 <= j < |p| ==> p[j] == EmaPoint(s, j + EMA_PERIOD - 1, minPrice, maxPrice)
  {
    if upTo >= EMA_PERIOD {
      EmaPointsShape(s, upTo - 1, minPrice, maxPrice);
    }
  }

  /**
   * Fewer than 20 candles draw no indicator at all (the EMA-12 line too);
   * otherwise the SMA line has count - 19 points and the EMA line count - 11.
   */
  lemma MovingAveragesCounts(s: seq<Candle>, minPrice: real, maxPrice: real,
                             lineVertices: (seq<Point>, IndicatorType, real) -> seq<Vertex>)
    requires maxPrice != minPrice
    ensures |s| < SMA_PERIOD ==> MovingAverages(s, minPrice, maxPrice, lineVertices) == []
    ensures |s| >= SMA_PERIOD ==>
              |SmaPoints(s, |s|, minPrice, maxPrice)| == |s| - 19 &&
              |EmaPoints(s, |s|, minPrice, maxPrice)| == |s| - 11 &&
              MovingAverages(s, minPrice, maxPrice, lineVertices)
                == lineVertices(SmaPoints(s, |s|, minPrice, maxPrice), SMA20, LINE_THICKNESS)
                 + lineVertices(EmaPoints(s, |s|, minPrice, maxPrice), EMA12, LINE_THICKNESS)
  {
    SmaPointsShape(s, |s|, minPrice, maxPrice);
    EmaPointsShape(s, |s|, minPrice, maxPrice);
  }

  lemma {:induction false} SumConstant(s: seq<Candle>, lo: nat, hi: nat, p: real)
    requires lo <= hi <= |s|
    requires forall j :: lo <= j < hi ==> Close(s[j]) == p
    ensures SumCloses(s, lo, hi) == (hi - lo) as real * p
    decreases hi - lo
  {
    if lo < hi {
      SumConstant(s, lo, hi - 1, p);
    }
  }

  /** On a window of equal closes both averages equal that close. */
  lemma {:induction false} AveragesOfConstant(s: seq<Candle>, i: nat, p: real)
    requires i < |s|
    requires forall j :: 0 <= j < |s| ==> Close(s[j]) == p
    ensures EmaAt(s, i) == p
    ensures i >= SMA_PERIOD - 1 ==> SmaAt(s, i) == p
  {
    if i > 0 {
      AveragesOfConstant(s, i - 1, p);
    }
    if i >= SMA_PERIOD - 1 {
      SumConstant(s, i + 1 - SMA_PERIOD, i + 1, p);
    }
  }

  /**
   * The indicator points use their own slots spread over the full width;
   * they coincide with the candles' right-aligned slots exactly when the
   * window holds 300 candles.
   */
  lemma LineXMatchesCandleX(i: nat, n: nat)
    requires n > 0
    ensures LineX(i, n) == CandleX(i, n) <==> n == 300
  {
    var a := i as real + 0.5;
    var nr := n as real;
    // Scaling both sides by 150 n turns the equation into (300 - n)(a - n) = 0.
    var lhs := (LineX(i, n) + 1.0) * 150.0 * nr;
    var rhs := (CandleX(i, n) + 1.0) * 150.0 * nr;
    assert lhs == 300.0 * a by {
      assert (LineX(i, n) + 1.0) * nr == a * 2.0;
    }
    assert rhs == (300.0 - nr) * nr + a * nr;
    assert lhs - rhs == (300.0 - nr) * (a - nr);
    assert a != nr;
    if n != 300 {
      var d := 300.0 - nr;
      var e := a - nr;
      assert d != 0.0 && e != 0.0;
      assert d * e != 0.0;
      assert lhs - rhs == d * e;
      assert lhs != rhs;
      assert LineX(i, n) + 1.0 != CandleX(i, n) + 1.0;
    }
  }

  /** The SMA-20 loop: one point per candle from index 19 on, each the mean of the trailing 20 closes. */
  method SmaLine(s: seq<Candle>, minPrice: real, maxPrice: real) returns (sma20: seq<Point>)
    requires |s| >= SMA_PERIOD && maxPrice != minPrice
    ensures sma20 == SmaPoints(s, |s|, minPrice, maxPrice)
  {
    var candleCount := |s|;
    var stepSize := 2.0 / candleCount as real;
    sma20 := [];
    for i := SMA_PERIOD - 1 to candleCount
      invariant sma20 == SmaPoints(s, i, minPrice, maxPrice)
    {
      var sum := SumCloses(s, i + 1 - SMA_PERIOD, i + 1);
      var sma := sum / SMA_PERIOD as real;
      var point := Point(-1.0 + (i as real + 0.5) * stepSize, PriceToNdc(sma, minPrice, maxPrice));
      assert point == SmaPoint(s, i, minPrice, maxPrice);
      sma20 := sma20 + [point];
    }
  }

  /** The EMA-12 loop: a running EMA seeded with the first close, one point per candle from index 11 on. */
  method EmaLine(s: seq<Candle>, minPrice: real, maxPrice: real) returns (ema12: seq<Point>)
    requires |s| >= EMA_PERIOD && maxPrice != minPrice
    ensures ema12 == EmaPoints(s, |s|, minPrice, maxPrice)
  {
    var candleCount := |s|;
    var stepSize := 2.0 / candleCount as real;
    ema12 := [];
    var ema := Close(s[0]);
    for i := 1 to candleCount
      invariant ema == EmaAt(s, i - 1)
      invariant ema12 == EmaPoints(s, i, minPrice, maxPrice)
    {
      ema := Close(s[i]) * EMA_K + ema * (1.0 - EMA_K);
      if i >= EMA_PERIOD - 1 {
        var point := Point(-1.0 + (i as real + 0.5) * stepSize, PriceToNdc(ema, minPrice, maxPrice));
        assert point == EmaPoint(s, i, minPrice, maxPrice);
        ema12 := ema12 + [point];
      }
    }
  }

  /** Builds the indicator lines with the renderer's loops and the running EMA. */
  method CreateMovingAverages(s: seq<Candle>, minPrice: real, maxPrice: real,
                              lineVertices: (seq<Point>, IndicatorType, real) -> seq<Vertex>)
    returns (vertices: seq<Vertex>)
    requires maxPrice != minPrice
    ensures vertices == MovingAverages(s, minPrice, maxPrice, lineVertices)
  {
    if |s| < SMA_PERIOD {
      return [];
    }
    var sma20 := SmaLine(s, minPrice, maxPrice);
    var ema12: seq<Point> := [];
    if |s| >= EMA_PERIOD {
      ema12 := EmaLine(s, minPrice, maxPrice);
    }
    vertices := [];
    if sma20 != [] {
      vertices := vertices + lineVertices(sma20, SMA20, LINE_THICKNESS);
    }
    if ema12 != [] {
      vertices := vertices + lineVertices(ema12, EMA12, LINE_THICKNESS);
    }
  }
}
