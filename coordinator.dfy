/**
 * The chart coordinator: the application object that owns the renderer,
 * the chart being shown and the canvas size, and forwards draw requests.
 * It starts uninitialised and becomes initialised, for good, when a
 * renderer is installed.
 */
module Coordinator {
  import opened Wrappers
  import opened MarketData
  import opened ChartPrimitives

  /**
   * The chart handed to the renderer. Its own code is not part of this
   * model; what the renderer reads of it is its candles and its viewport.
   */
  datatype Chart = Chart(candles: seq<Candle>, viewport: Viewport)

  /**
   * The GPU renderer, opaque here: its drawing of a chart at a given
   * surface size and its performance report are given; its size is what it
   * was last resized to, and every draw uses it.
   */
  datatype Renderer = Renderer(
    width: nat,
    height: nat,
    draw: (nat, nat, Chart) -> Result<Unit, string>,
    performanceInfo: string)

  const NOT_INITIALIZED_ERROR: string := "Chart coordinator not initialized"
  const NOT_AVAILABLE_ERROR: string := "Chart or renderer not available"

  /** The performance report when no renderer is installed. */
  const NO_RENDERER_INFO: string := "{\"backend\":\"none\",\"status\":\"not_initialized\"}"

  class ChartCoordinator {
    var renderer: Option<Renderer>
    var chart: Option<Chart>
    var canvasId: string
    var width: nat
    var height: nat
    var isInitialized: bool

    /** The flag records exactly whether a renderer has been installed. */
    ghost predicate Valid()
      reads this
    {
      isInitialized <==> renderer.Some?
    }

    constructor (canvasId: string, width: nat, height: nat)
      ensures Valid()
      ensures this.renderer == None && this.chart == None && !this.isInitialized
      ensures this.canvasId == canvasId && this.width == width && this.height == height
    {
      this.renderer := None;
      this.chart := None;
      this.canvasId := canvasId;
      this.width := width;
      this.height := height;
      this.isInitialized := false;
    }

    /** Installs the renderer; from now on the coordinator is initialised. */
    method InitializeRenderer(r: Renderer)
      modifies this
      ensures Valid()
      ensures renderer == Some(r) && isInitialized
      ensures chart == old(chart) && canvasId == old(canvasId)
      ensures width == old(width) && height == old(height)
    {
      renderer := Some(r);
      isInitialized := true;
    }

    /**
     * Draws the current chart. Not yet initialised: refused before chart or
     * renderer is looked at. Initialised but without a chart (or renderer):
     * refused. Otherwise the renderer's own result, unchanged.
     */
    method RenderChart() returns (result: Result<Unit, string>)
      ensures !isInitialized ==> result == Err(NOT_INITIALIZED_ERROR)
      ensures isInitialized && (chart.None? || renderer.None?) ==> result == Err(NOT_AVAILABLE_ERROR)
      ensures isInitialized && chart.Some? && renderer.Some? ==>
                result == renderer.value.draw(renderer.value.width, renderer.value.height, chart.value)
      ensures Valid() && chart.Some? && renderer.Some? ==>
                result == renderer.value.draw(renderer.value.width, renderer.value.height, chart.value)
    {
      if !isInitialized {
        return Err(NOT_INITIALIZED_ERROR);
      }
      if chart.Some? && renderer.Some? {
        result := renderer.value.draw(renderer.value.width, renderer.value.height, chart.value);
      } else {
        result := Err(NOT_AVAILABLE_ERROR);
      }
    }

    /** Replaces the chart; nothing else changes. */
    method SetChart(c: Chart)
      modifies this`chart
      ensures chart == Some(c)
    {
      chart := Some(c);
    }

    method GetChart() returns (c: Option<Chart>)
      ensures c == chart
    {
      c := chart;
    }

    /** Records the new canvas size and passes it on to the renderer, if there is one. */
    method Resize(newWidth: nat, newHeight: nat)
      modifies this
      ensures width == newWidth && height == newHeight
      ensures renderer.Some? <==> old(renderer).Some?
      ensures renderer.Some? ==>
                renderer.value == old(renderer).value.(width := newWidth, height := newHeight)
      ensures chart == old(chart) && isInitialized == old(isInitialized) && canvasId == old(canvasId)
      ensures old(Valid()) ==> Valid()
    {
      width := newWidth;
      height := newHeight;
      if renderer.Some? {
        renderer := Some(renderer.value.(width := newWidth, height := newHeight));
      }
    }

    /** Under the invariant, initialised means a renderer is installed. */
    function IsInitialized(): (b: bool)
      reads this
      requires Valid()
      ensures b <==> renderer.Some?
    {
      isInitialized
    }

    /** The renderer's report, or a fixed "not initialised" report without one. */
    method GetPerformanceInfo() returns (info: string)
      ensures renderer.None? ==> info == NO_RENDERER_INFO
      ensures renderer.Some? ==> info == renderer.value.performanceInfo
    {
      if renderer.Some? {
        info := renderer.value.performanceInfo;
      } else {
        info := NO_RENDERER_INFO;
      }
    }
  }

  /**
   * The coordinator's life cycle: a fresh coordinator refuses to draw as
   * uninitialised; once a renderer and a chart are installed and the canvas
   * is resized, drawing yields exactly the renderer's result for that chart
   * at the new size.
   */
  method LifeCycle(canvasId: string, r: Renderer, c: Chart, width: nat, height: nat, newWidth: nat, newHeight: nat)
    returns (before: Result<Unit, string>, after: Result<Unit, string>)
    ensures before == Err(NOT_INITIALIZED_ERROR)
    ensures after == r.draw(newWidth, newHeight, c)
  {
    var coordinator := new ChartCoordinator(canvasId, width, height);
    before := coordinator.RenderChart();
    coordinator.SetChart(c);
    coordinator.InitializeRenderer(r);
    coordinator.Resize(newWidth, newHeight);
    after := coordinator.RenderChart();
  }
}
