/**
 * The per-frame geometry synthesis: choose the visible window from the zoom
 * level, settle the price range (pinned by the viewport or autoscaled over
 * the window with 5% padding), and emit the candle bodies and wicks, the
 * current-price line, the grid, the volume bars and the moving averages,
 * together with the uniform block the shaders read.
 */
module ChartGeometry {
  import opened MarketData
  import opened ChartPrimitives
  import opened ChartOverlays

  /** The machine epsilon of a 32-bit float, 2^-23: below it a pinned range counts as empty. */
  const F32_EPSILON: real := 1.0 / 8388608.0

  /** A settled price range narrower than this is rejected. */
  const MIN_PRICE_RANGE: real := 0.01

  /** Candle bodies are drawn at least this tall. */
  const MIN_BODY_HEIGHT: real := 0.005

  const PRICE_LINE_THICKNESS: real := 0.002

  /** Share of a slot left empty between candles, passed on to the shaders. */
  const SPACING_RATIO: real := 0.2

  // ================================================================ visible window

  /**
   * How many of the newest candles are shown: 300 / zoom, at least 10, at
   * most all of them, truncated to an integer. A zero zoom divides to
   * +infinity in the source's floating point and so shows every candle; a
   * negative zoom gives a negative quotient and so shows 10.
   */
  function VisibleCount(zoomLevel: real, candleCount: nat): (v: nat)
    ensures v <= candleCount
    ensures v >= (if candleCount < 10 then candleCount else 10)
  {
    if zoomLevel == 0.0 then candleCount
    else
      var wanted := MaxR(BASE_CANDLES / zoomLevel, 10.0);
      MinR(wanted, candleCount as real).Floor
  }

  /** At zoom 1 the window is the newest 300 candles. */
  lemma DefaultZoomWindow(candleCount: nat)
    ensures VisibleCount(1.0, candleCount) == if candleCount < 300 then candleCount else 300
  {
  }

  /** Zero zoom shows everything; negative zoom shows 10 candles (or all, when fewer). */
  lemma NonPositiveZoomWindow(zoomLevel: real, candleCount: nat)
    requires zoomLevel <= 0.0
    ensures zoomLevel == 0.0 ==> VisibleCount(zoomLevel, candleCount) == candleCount
    ensures zoomLevel < 0.0 ==> VisibleCount(zoomLevel, candleCount) == if candleCount < 10 then candleCount else 10
  {
    if zoomLevel < 0.0 {
      assert BASE_CANDLES / zoomLevel < 0.0;
    }
  }

  /** Zooming in never shows more candles. */
  lemma ZoomInShowsFewer(z1: real, z2: real, candleCount: nat)
    requires 0.0 < z1 <= z2
    ensures VisibleCount(z2, candleCount) <= VisibleCount(z1, candleCount)
  {
    assert BASE_CANDLES / z2 <= BASE_CANDLES / z1 by {
      assert BASE_CANDLES / z1 - BASE_CANDLES / z2 == BASE_CANDLES * (z2 - z1) / (z1 * z2);
    }
    var a := MinR(MaxR(BASE_CANDLES / z2, 10.0), candleCount as real);
    var b := MinR(MaxR(BASE_CANDLES / z1, 10.0), candleCount as real);
    assert a <= b;
    assert a.Floor as real <= a <= b < b.Floor as real + 1.0;
  }

  /** The visible window: the newest VisibleCount candles, in order. */
  function VisibleWindow(candles: seq<Candle>, zoomLevel: real): (w: seq<Candle>)
    ensures |w| == VisibleCount(zoomLevel, |candles|)
    ensures candles == candles[..|candles| - |w|] + w
  {
    candles[|candles| - VisibleCount(zoomLevel, |candles|)..]
  }

  // ================================================================ price range

  /** The scan for the lowest low, starting from `init`. */
  function MinLow(init: real, s: seq<Candle>): real
  {
    if s == [] then init else MinR(MinLow(init, s[..|s| - 1]), Low(s[|s| - 1]))
  }

  /** The scan for the highest high, starting from `init`. */
  function MaxHigh(init: real, s: seq<Candle>): real
  {
    if s == [] then init else MaxR(MaxHigh(init, s[..|s| - 1]), High(s[|s| - 1]))
  }

  /** The low scan ends at a value no greater than its start or any low, and it is one of them. */
  lemma {:induction false} MinLowBounds(init: real, s: seq<Candle>)
    ensures MinLow(init, s) <= init
    ensures forall k :: 0 <= k < |s| ==> MinLow(init, s) <= Low(s[k])
    ensures MinLow(init, s) == init || exists k :: 0 <= k < |s| && MinLow(init, s) == Low(s[k])
  {
    if s != [] {
      var prefix := s[..|s| - 1];
      MinLowBounds(init, prefix);
      assert forall k :: 0 <= k < |prefix| ==> prefix[k] == s[k];
    }
  }

  /** The high scan ends at a value no smaller than its start or any high, and it is one of them. */
  lemma {:induction false} MaxHighBounds(init: real, s: seq<Candle>)
    ensures MaxHigh(init, s) >= init
    ensures forall k :: 0 <= k < |s| ==> MaxHigh(init, s) >= High(s[k])
    ensures MaxHigh(init, s) == init || exists k :: 0 <= k < |s| && MaxHigh(init, s) == High(s[k])
  {
    if s != [] {
      var prefix := s[..|s| - 1];
      MaxHighBounds(init, prefix);
      assert forall k :: 0 <= k < |prefix| ==> prefix[k] == s[k];
    }
  }

  /** A viewport whose bounds (nearly) coincide does not pin the price range. */
  predicate NotPinned(vp: Viewport)
  {
    AbsR(vp.maxPrice - vp.minPrice) < F32_EPSILON
  }

  /**
   * The settled price range: the viewport's when it pins one; otherwise the
   * scan over the window, started from the viewport's own bounds, widened by
   * 5% of its span on each side.
   */
  function PriceBounds(vp: Viewport, visible: seq<Candle>): (b: Viewport)
    ensures !NotPinned(vp) ==> b == vp
    ensures NotPinned(vp) ==>
              var span := MaxHigh(vp.maxPrice, visible) - MinLow(vp.minPrice, visible);
              b.maxPrice - b.minPrice == span * 1.1 &&
              b.minPrice == MinLow(vp.minPrice, visible) - span * 0.05
  {
    if NotPinned(vp) then
      var minPrice := MinLow(vp.minPrice, visible);
      var maxPrice := MaxHigh(vp.maxPrice, visible);
      var priceRange := maxPrice - minPrice;
      Viewport(minPrice - priceRange * 0.05, maxPrice + priceRange * 0.05)
    else vp
  }

  /**
   * Autoscale covers the window: with consistent candles (low at most high)
   * every low and every high of the window lies inside the settled range,
   * which is ordered.
   */
  lemma AutoscaleCovers(vp: Viewport, visible: seq<Candle>)
    requires NotPinned(vp) && visible != []
    requires forall k :: 0 <= k < |visible| ==> Low(visible[k]) <= High(visible[k])
    ensures var b := PriceBounds(vp, visible);
            && b.minPrice <= b.maxPrice
            && forall k :: 0 <= k < |visible| ==> b.minPrice <= Low(visible[k]) && High(visible[k]) <= b.maxPrice
  {
    MinLowBounds(vp.minPrice, visible);
    MaxHighBounds(vp.maxPrice, visible);
    assert MinLow(vp.minPrice, visible) <= Low(visible[0]) <= High(visible[0]) <= MaxHigh(vp.maxPrice, visible);
  }

  /** A settled range narrower than MIN_PRICE_RANGE makes the frame empty. */
  predicate Degenerate(b: Viewport)
  {
    AbsR(b.maxPrice - b.minPrice) < MIN_PRICE_RANGE
  }

  /**
   * A flat window (every low and high at price p) under an unpinned viewport
   * whose bounds lie at q is rejected only when p and q are close: a flat
   * window far from the viewport's bounds is drawn.
   */
  lemma FlatWindow(q: real, visible: seq<Candle>, p: real)
    requires visible != []
    requires forall k :: 0 <= k < |visible| ==> Low(visible[k]) == p && High(visible[k]) == p
    ensures var b := PriceBounds(Viewport(q, q), visible);
            (p == q ==> Degenerate(b)) && (AbsR(p - q) >= MIN_PRICE_RANGE ==> !Degenerate(b))
  {
    var vp := Viewport(q, q);
    MinLowBounds(q, visible);
    MaxHighBounds(q, visible);
    var lo := MinLow(q, visible);
    var hi := MaxHigh(q, visible);
    assert lo == MinR(q, p) && hi == MaxR(q, p);
  }

  // ================================================================ candles

  /** Width of a candle body: the slot width scaled by the clamped zoom, kept within [0.002, 0.1]. */
  function CandleWidth(zoomLevel: real): (w: real)
    ensures 0.002 <= w <= 0.1
  {
    ClampR(STEP * ClampR(zoomLevel, 0.1, 10.0) * 0.8, 0.002, 0.1)
  }

  /** The four prices of a candle placed in the candle band. */
  datatype CandleYs = CandleYs(openY: real, highY: real, lowY: real, closeY: real)

  function NormalizedYs(c: Candle, minPrice: real, maxPrice: real): CandleYs
    requires maxPrice != minPrice
  {
    CandleYs(PriceY(Open(c), minPrice, maxPrice), PriceY(High(c), minPrice, maxPrice),
             PriceY(Low(c), minPrice, maxPrice), PriceY(Close(c), minPrice, maxPrice))
  }

  function BodyBottom(ys: CandleYs): real
  {
    MinR(ys.openY, ys.closeY)
  }

  /**
   * The drawn top of the body: the higher of open and close, raised so that
   * the body is at least MIN_BODY_HEIGHT tall.
   */
  function ActualBodyTop(ys: CandleYs): (top: real)
    ensures top >= BodyBottom(ys) + MIN_BODY_HEIGHT
    ensures top >= MaxR(ys.openY, ys.closeY)
    ensures MaxR(ys.openY, ys.closeY) - BodyBottom(ys) >= MIN_BODY_HEIGHT ==> top == MaxR(ys.openY, ys.closeY)
  {
    var bodyTop := MaxR(ys.openY, ys.closeY);
    var bodyBottom := BodyBottom(ys);
    if AbsR(bodyTop - bodyBottom) < MIN_BODY_HEIGHT then bodyBottom + MIN_BODY_HEIGHT else bodyTop
  }

  /** The upper wick is drawn when the high lies above the drawn body. */
  predicate HasUpperWick(ys: CandleYs)
  {
    ys.highY > ActualBodyTop(ys)
  }

  /** The lower wick is drawn when the low lies below the body. */
  predicate HasLowerWick(ys: CandleYs)
  {
    ys.lowY < BodyBottom(ys)
  }

  /** The body of a candle centred at x: from the body bottom to the drawn body top. */
  function BodyQuad(x: real, candleWidth: real, ys: CandleYs): seq<Vertex>
  {
    Quad(x - candleWidth * 0.5, x + candleWidth * 0.5, BodyBottom(ys), ActualBodyTop(ys), Body(ys.closeY >= ys.openY))
  }

  /** The upper wick, from the drawn body top to the high, when the high sticks out. */
  function UpperWickQuad(x: real, candleWidth: real, ys: CandleYs): seq<Vertex>
  {
    var wickHalf := candleWidth * 0.1 * 0.5;
    if HasUpperWick(ys) then Quad(x - wickHalf, x + wickHalf, ActualBodyTop(ys), ys.highY, Wick) else []
  }

  /** The lower wick, from the low to the body bottom, when the low sticks out. */
  function LowerWickQuad(x: real, candleWidth: real, ys: CandleYs): seq<Vertex>
  {
    var wickHalf := candleWidth * 0.1 * 0.5;
    if HasLowerWick(ys) then Quad(x - wickHalf, x + wickHalf, ys.lowY, BodyBottom(ys), Wick) else []
  }

  /** Body quad, then the upper wick, then the lower wick, for candle i of the window. */
  function CandleQuads(visible: seq<Candle>, i: nat, candleWidth: real, minPrice: real, maxPrice: real): seq<Vertex>
    requires i < |visible| && maxPrice != minPrice
  {
    var x := CandleX(i, |visible|);
    var ys := NormalizedYs(visible[i], minPrice, maxPrice);
    BodyQuad(x, candleWidth, ys) + UpperWickQuad(x, candleWidth, ys) + LowerWickQuad(x, candleWidth, ys)
  }

  /**
   * A candle emits its six body vertices, at least MIN_BODY_HEIGHT tall and
   * tagged bullish exactly when the close sits at or above the open, then
   * six vertices per wick that sticks out of the body.
   */
  lemma CandleQuadsShape(visible: seq<Candle>, i: nat, candleWidth: real, minPrice: real, maxPrice: real)
    requires i < |visible| && maxPrice != minPrice
    ensures var v := CandleQuads(visible, i, candleWidth, minPrice, maxPrice);
            var ys := NormalizedYs(visible[i], minPrice, maxPrice);
            && |v| == 6 + (if HasUpperWick(ys) then 6 else 0) + (if HasLowerWick(ys) then 6 else 0)
            && (forall m :: 0 <= m < 6 ==> v[m].kind == Body(ys.closeY >= ys.openY))
            && v[4].y - v[0].y >= MIN_BODY_HEIGHT
            && (forall m :: 6 <= m < |v| ==> v[m].kind == Wick)
  {
  }

  /** With an increasing price range a body is bullish exactly when the candle closed at or above its open. */
  lemma BullishIffCloseAtLeastOpen(c: Candle, minPrice: real, maxPrice: real)
    requires maxPrice > minPrice
    ensures var ys := NormalizedYs(c, minPrice, maxPrice);
            ys.closeY >= ys.openY <==> Close(c) >= Open(c)
  {
    PriceYMonotone(Open(c), Close(c), minPrice, maxPrice);
  }

  /** The quads of candles 0 .. k-1 of the window, in order. */
  function CandlesUpTo(visible: seq<Candle>, k: nat, candleWidth: real, minPrice: real, maxPrice: real): seq<Vertex>
    requires k <= |visible| && maxPrice != minPrice
  {
    if k == 0 then []
    else CandlesUpTo(visible, k - 1, candleWidth, minPrice, maxPrice)
           + CandleQuads(visible, k - 1, candleWidth, minPrice, maxPrice)
  }

  /** Between 6 and 18 vertices per candle. */
  lemma {:induction false} CandlesUpToCount(visible: seq<Candle>, k: nat, candleWidth: real, minPrice: real, maxPrice: real)
    requires k <= |visible| && maxPrice != minPrice
    ensures 6 * k <= |CandlesUpTo(visible, k, candleWidth, minPrice, maxPrice)| <= 18 * k
  {
    if k > 0 {
      CandlesUpToCount(visible, k - 1, candleWidth, minPrice, maxPrice);
      CandleQuadsShape(visible, k - 1, candleWidth, minPrice, maxPrice);
    }
  }

  /** The current-price line across the chart at the newest close, when there is a candle. */
  function PriceLine(visible: seq<Candle>, minPrice: real, maxPrice: real): (v: seq<Vertex>)
    requires maxPrice != minPrice
    ensures visible == [] <==> v == []
    ensures visible != [] ==>
              |v| == 6 && v[0] == Vertex(-1.0, PriceY(Close(visible[|visible| - 1]), minPrice, maxPrice) - PRICE_LINE_THICKNESS, CurrentPrice)
  {
    if visible == [] then []
    else
      var y := PriceY(Close(visible[|visible| - 1]), minPrice, maxPrice);
      Quad(-1.0, 1.0, y - PRICE_LINE_THICKNESS, y + PRICE_LINE_THICKNESS, CurrentPrice)
  }

  // ================================================================ the frame

  /**
   * The uniform block: the default one (its contents belong to the GPU
   * structures, which are not part of this model) or the one built for a
   * frame, holding the viewport [width, height, min price, max price], the
   * time range [0, n, n, 0] and the render parameters [candle width,
   * spacing ratio, 0.004, 0].
   */
  datatype Uniforms =
    | DefaultUniforms
    | ChartUniforms(viewport: seq<real>, timeRange: seq<real>, renderParams: seq<real>)

  function FrameUniforms(r: RendererState, b: Viewport, visibleLen: nat): (u: Uniforms)
    ensures u.ChartUniforms? && |u.viewport| == 4 && |u.timeRange| == 4 && |u.renderParams| == 4
  {
    ChartUniforms([r.width as real, r.height as real, b.minPrice, b.maxPrice],
                  [0.0, visibleLen as real, visibleLen as real, 0.0],
                  [CandleWidth(r.zoomLevel), SPACING_RATIO, 0.004, 0.0])
  }

  /** Everything drawn in one frame, in emission order. */
  function FrameVertices(visible: seq<Candle>, r: RendererState, b: Viewport,
                         lineVertices: (seq<Point>, IndicatorType, real) -> seq<Vertex>): seq<Vertex>
    requires b.maxPrice != b.minPrice
  {
    CandlesUpTo(visible, |visible|, CandleWidth(r.zoomLevel), b.minPrice, b.maxPrice)
      + PriceLine(visible, b.minPrice, b.maxPrice)
      + GridLines(b.minPrice, b.maxPrice, |visible|)
      + VolumeBars(visible, r)
      + MovingAverages(visible, b.minPrice, b.maxPrice, lineVertices)
  }

  /**
   * The synthesis. No candles, or a settled price range narrower than
   * MIN_PRICE_RANGE, give no vertices and the default uniforms; otherwise
   * the frame's vertices and uniforms.
   */
  function Geometry(candles: seq<Candle>, r: RendererState, vp: Viewport,
                    lineVertices: (seq<Point>, IndicatorType, real) -> seq<Vertex>): (g: (seq<Vertex>, Uniforms))
    ensures candles == [] ==> g == ([], DefaultUniforms)
    ensures g.1.DefaultUniforms? <==>
              candles == [] || Degenerate(PriceBounds(vp, VisibleWindow(candles, r.zoomLevel)))
    ensures g.1.DefaultUniforms? ==> g.0 == []
  {
    if candles == [] then ([], DefaultUniforms)
    else
      var visible := VisibleWindow(candles, r.zoomLevel);
      var b := PriceBounds(vp, visible);
      if Degenerate(b) then ([], DefaultUniforms)
      else (FrameVertices(visible, r, b, lineVertices), FrameUniforms(r, b, |visible|))
  }

  /**
   * The frame's vertices start with the candles' quads and hold at least six
   * vertices per candle, the six of the price line and the 96 of the grid.
   */
  lemma FrameVerticesShape(visible: seq<Candle>, r: RendererState, b: Viewport,
                           lineVertices: (seq<Point>, IndicatorType, real) -> seq<Vertex>)
    requires visible != [] && b.maxPrice != b.minPrice
    ensures var body := CandlesUpTo(visible, |visible|, CandleWidth(r.zoomLevel), b.minPrice, b.maxPrice);
            var v := FrameVertices(visible, r, b, lineVertices);
            |v| >= 6 * |visible| + 6 + 96 && v[..|body|] == body
  {
    var w := CandleWidth(r.zoomLevel);
    var body := CandlesUpTo(visible, |visible|, w, b.minPrice, b.maxPrice);
    var withLine := body + PriceLine(visible, b.minPrice, b.maxPrice);
    var withGrid := withLine + GridLines(b.minPrice, b.maxPrice, |visible|);
    var withBars := withGrid + VolumeBars(visible, r);
    var v := withBars + MovingAverages(visible, b.minPrice, b.maxPrice, lineVertices);
    assert FrameVertices(visible, r, b, lineVertices) == v;
    CandlesUpToCount(visible, |visible|, w, b.minPrice, b.maxPrice);
    GridCount(b.minPrice, b.maxPrice, |visible|);
    assert withLine[..|body|] == body;
    assert withGrid[..|body|] == withLine[..|body|];
    assert withBars[..|body|] == withGrid[..|body|];
    assert v[..|body|] == withBars[..|body|];
  }

  /**
   * A drawn frame shows at least one candle, starts with the candles' quads
   * and holds at least six vertices per visible candle, the six of the price
   * line and the 96 of the grid; its uniforms carry the settled range and
   * the window length.
   */
  lemma GeometryShape(candles: seq<Candle>, r: RendererState, vp: Viewport,
                      lineVertices: (seq<Point>, IndicatorType, real) -> seq<Vertex>)
    requires candles != []
    requires !Degenerate(PriceBounds(vp, VisibleWindow(candles, r.zoomLevel)))
    ensures var visible := VisibleWindow(candles, r.zoomLevel);
            var b := PriceBounds(vp, visible);
            var g := Geometry(candles, r, vp, lineVertices);
            var body := CandlesUpTo(visible, |visible|, CandleWidth(r.zoomLevel), b.minPrice, b.maxPrice);
            && |visible| >= 1
            && |g.0| >= 6 * |visible| + 6 + 96
            && g.0[..|body|] == body
            && g.1.viewport == [r.width as real, r.height as real, b.minPrice, b.maxPrice]
            && g.1.timeRange == [0.0, |visible| as real, |visible| as real, 0.0]
  {
    var visible := VisibleWindow(candles, r.zoomLevel);
    FrameGeometry(candles, r, vp, lineVertices);
    FrameVerticesShape(visible, r, PriceBounds(vp, visible), lineVertices);
  }

  /** A drawn frame is the frame's vertices and uniforms over the window and the settled range. */
  lemma FrameGeometry(candles: seq<Candle>, r: RendererState, vp: Viewport,
                      lineVertices: (seq<Point>, IndicatorType, real) -> seq<Vertex>)
    requires candles != []
    requires !Degenerate(PriceBounds(vp, VisibleWindow(candles, r.zoomLevel)))
    ensures var visible := VisibleWindow(candles, r.zoomLevel);
            var b := PriceBounds(vp, visible);
            Geometry(candles, r, vp, lineVertices) == (FrameVertices(visible, r, b, lineVertices), FrameUniforms(r, b, |visible|))
  {
  }

  /** The range-settling part of the synthesis: the scan loop over the window and the padding. */
  method SettlePriceRange(vp: Viewport, visible: seq<Candle>) returns (minPrice: real, maxPrice: real)
    ensures Viewport(minPrice, maxPrice) == PriceBounds(vp, visible)
  {
    minPrice := vp.minPrice;
    maxPrice := vp.maxPrice;
    if AbsR(maxPrice - minPrice) < F32_EPSILON {
      for i := 0 to |visible|
        invariant minPrice == MinLow(vp.minPrice, visible[..i])
        invariant maxPrice == MaxHigh(vp.maxPrice, visible[..i])
      {
        assert visible[..i + 1][..i] == visible[..i];
        minPrice := MinR(minPrice, Low(visible[i]));
        maxPrice := MaxR(maxPrice, High(visible[i]));
      }
      assert visible[..|visible|] == visible;
      var priceRange := maxPrice - minPrice;
      minPrice := minPrice - priceRange * 0.05;
      maxPrice := maxPrice + priceRange * 0.05;
    }
  }

  /**
   * One iteration of the candle loop: the body, raised to the minimum
   * height, then each wick that sticks out of it.
   */
  method EmitCandle(visible: seq<Candle>, i: nat, candleWidth: real, minPrice: real, maxPrice: real)
    returns (quads: seq<Vertex>)
    requires i < |visible| && maxPrice != minPrice
    ensures quads == CandleQuads(visible, i, candleWidth, minPrice, maxPrice)
  {
    var x := CandleX(i, |visible|);
    var c := visible[i];
    var ys := NormalizedYs(c, minPrice, maxPrice);
    var openY, highY, lowY, closeY := ys.openY, ys.highY, ys.lowY, ys.closeY;
    var halfWidth := candleWidth * 0.5;
    var bodyTop := MaxR(openY, closeY);
    var bodyBottom := MinR(openY, closeY);
    var actualBodyTop := if AbsR(bodyTop - bodyBottom) < MIN_BODY_HEIGHT then bodyBottom + MIN_BODY_HEIGHT else bodyTop;
    assert actualBodyTop == ActualBodyTop(ys);
    var isBullish := closeY >= openY;
    var body := Quad(x - halfWidth, x + halfWidth, bodyBottom, actualBodyTop, Body(isBullish));
    var wickHalf := candleWidth * 0.1 * 0.5;
    var upperWick: seq<Vertex> := [];
    if highY > actualBodyTop {
      upperWick := Quad(x - wickHalf, x + wickHalf, actualBodyTop, highY, Wick);
    }
    var lowerWick: seq<Vertex> := [];
    if lowY < bodyBottom {
      lowerWick := Quad(x - wickHalf, x + wickHalf, lowY, bodyBottom, Wick);
    }
    assert body == BodyQuad(x, candleWidth, ys);
    assert upperWick == UpperWickQuad(x, candleWidth, ys);
    assert lowerWick == LowerWickQuad(x, candleWidth, ys);
    quads := body + upperWick + lowerWick;
  }

  /** The per-candle loop of the synthesis: bodies and wicks, then the current-price line. */
  method CreateCandleVertices(visible: seq<Candle>, candleWidth: real, minPrice: real, maxPrice: real)
    returns (vertices: seq<Vertex>)
    requires maxPrice != minPrice
    ensures vertices == CandlesUpTo(visible, |visible|, candleWidth, minPrice, maxPrice)
                          + PriceLine(visible, minPrice, maxPrice)
  {
    vertices := [];
    for i := 0 to |visible|
      invariant vertices == CandlesUpTo(visible, i, candleWidth, minPrice, maxPrice)
    {
      var quads := EmitCandle(visible, i, candleWidth, minPrice, maxPrice);
      vertices := vertices + quads;
    }
    if visible != [] {
      var currentPrice := Close(visible[|visible| - 1]);
      var priceY := -0.5 + ((currentPrice - minPrice) / (maxPrice - minPrice)) * 1.3;
      vertices := vertices + Quad(-1.0, 1.0, priceY - PRICE_LINE_THICKNESS, priceY + PRICE_LINE_THICKNESS, CurrentPrice);
    }
  }

  /** The drawing part of the synthesis, once the window and a usable price range are settled. */
  method CreateFrame(visible: seq<Candle>, r: RendererState, minPrice: real, maxPrice: real,
                     lineVertices: (seq<Point>, IndicatorType, real) -> seq<Vertex>)
    returns (vertices: seq<Vertex>, uniforms: Uniforms)
    requires maxPrice != minPrice
    ensures vertices == FrameVertices(visible, r, Viewport(minPrice, maxPrice), lineVertices)
    ensures uniforms == FrameUniforms(r, Viewport(minPrice, maxPrice), |visible|)
  {
    var candleWidth := ClampR(STEP * ClampR(r.zoomLevel, 0.1, 10.0) * 0.8, 0.002, 0.1);
    vertices := CreateCandleVertices(visible, candleWidth, minPrice, maxPrice);
    var grid := CreateGridLines(minPrice, maxPrice, |visible|);
    var bars := CreateVolumeBars(visible, r);
    var averages := CreateMovingAverages(visible, minPrice, maxPrice, lineVertices);
    vertices := vertices + grid + bars + averages;
    uniforms := ChartUniforms([r.width as real, r.height as real, minPrice, maxPrice],
                              [0.0, |visible| as real, |visible| as real, 0.0],
                              [candleWidth, SPACING_RATIO, 0.004, 0.0]);
  }

  /** Builds the frame as the renderer does: window, range, rejection, then drawing. */
  method CreateGeometry(candles: seq<Candle>, r: RendererState, vp: Viewport,
                        lineVertices: (seq<Point>, IndicatorType, real) -> seq<Vertex>)
    returns (vertices: seq<Vertex>, uniforms: Uniforms)
    ensures (vertices, uniforms) == Geometry(candles, r, vp, lineVertices)
  {
    if candles == [] {
      return [], DefaultUniforms;
    }
    var candleCount := |candles|;
    var visibleCount := VisibleCount(r.zoomLevel, candleCount);
    var startIndex := candleCount - visibleCount;
    var visible := candles[startIndex..];
    assert visible == VisibleWindow(candles, r.zoomLevel);

    var minPrice, maxPrice := SettlePriceRange(vp, visible);
    if AbsR(maxPrice - minPrice) < MIN_PRICE_RANGE {
      return [], DefaultUniforms;
    }
    vertices, uniforms := CreateFrame(visible, r, minPrice, maxPrice, lineVertices);
    FrameGeometry(candles, r, vp, lineVertices);
  }
}
