# price-chart-wasm core, modelled in Dafny

price-chart-wasm is a browser candlestick chart for crypto markets, written in Rust and
compiled to WebAssembly. The model covers four parts of it.

- **Market-data value objects.** These are prices, volumes, timestamps, OHLCV records,
  trading symbols and the nine candle intervals, with their validators, names and durations
  (`market_data.dfy`).
- **The live candle series.** The streaming handler merges each incoming candle into the tail
  of a time-ordered series bounded to 300 candles (`candle_series.dfy`). Beside it is the
  debug console's log history, bounded to 100 lines, with its pause and clear buttons
  (`log_buffer.dfy`). The FIFO trimming both share is in `bounded_seq.dfy`.
- **The geometry synthesis.** Each frame, the renderer:
  - picks the visible window from the zoom level;
  - settles the price range, pinned by the viewport or autoscaled with 5% padding;
  - rejects degenerate ranges;
  - emits six-vertex quads for candle bodies, wicks, the current-price line, the grid and the
    volume bars;
  - emits the SMA-20 and EMA-12 polylines;
  - builds the uniform block.

  This is spread over `chart_primitives.dfy`, `chart_overlays.dfy` and `chart_geometry.dfy`.
- **The chart coordinator.** This is the object that owns the renderer, the chart and the
  canvas size, and refuses to draw until it is initialised (`coordinator.dfy`).

## How it is modelled

- Floating-point prices and coordinates are exact `real`s.
- A raw 64-bit float at the validation boundary is `F64`, which can also be NaN or ±infinity,
  so the finiteness test can be stated. A `u64` is a newtype.
- Each operation that works by loops or in-place updates is a `method`, proved equal to a
  specification function. The functions' properties are proved as lemmas:
  - the candle series is the class `CandleStore`;
  - the log history is the class `LogBuffer`;
  - the coordinator is the class `ChartCoordinator`;
  - each geometry builder is a method with `for` loops.
- The polyline builder the moving averages call is not part of this model. It is a
  function-typed parameter `lineVertices`.
- The renderer's draw call (a function of its surface size and the chart) and its performance
  report are fields of the `Renderer` datatype.

## Model

| member | source | states |
|---|---|---|
| MarketData.ValidatePrice | src/domain/market_data/value_objects.rs:17-23 | Ok exactly when the raw value is finite and not negative, wrapping that same value; otherwise Err carrying the rejected value |
| MarketData.ValidateVolume | src/domain/market_data/value_objects.rs:43-49 | the same accept/reject rule and value preservation for volumes |
| MarketData.ValidateRoundTrip | src/domain/market_data/value_objects.rs:17-49 | validating the raw value of a non-negative price or volume gives that price or volume back |
| MarketData.FromMillis | src/domain/market_data/value_objects.rs:79-81 | the timestamp holds exactly the given milliseconds |
| MarketData.FromMilliseconds | src/domain/market_data/value_objects.rs:83-85 | never fails, and holds exactly the given milliseconds |
| MarketData.IsValidOhlcv | src/domain/market_data/value_objects.rs:100-107 | valid exactly when open and close both lie between low and high and the volume is not negative (so valid implies low ≤ high) |
| MarketData.ToUppercaseIdempotent | src/domain/market_data/value_objects.rs:116-121 | upper-casing twice is upper-casing once |
| MarketData.NewSymbol | src/domain/market_data/value_objects.rs:116-121 | Err exactly for the empty string; otherwise the stored text is the input upper-cased character by character (same length, each character `UpperChar` of the input's), which upper-casing again leaves unchanged |
| MarketData.SymbolFrom | src/domain/market_data/value_objects.rs:128-132 | never refuses (the empty string included); the stored text is the input upper-cased character by character and is left unchanged by upper-casing again |
| MarketData.SymbolConstructorsAgree | src/domain/market_data/value_objects.rs:116-132 | both constructors give the same symbol on non-empty input; only the checked one refuses "" |
| MarketData.UppercaseFixedPoint | src/domain/market_data/value_objects.rs:128-137 | a string without lower-case letters is stored unchanged |
| MarketData.DefaultSymbols | src/domain/market_data/value_objects.rs:135-137 | exactly BTCUSDT, ETHUSDT, SOLUSDT, in that order |
| MarketData.BinanceName | src/domain/market_data/value_objects.rs:154-195 | every exchange name is a one- or two-digit count followed by one unit letter of s, m, h, d, w, M; `ParseName` shows parsing inverts it and `NamesDistinct` that it is injective |
| MarketData.ParseInterval | src/domain/market_data/value_objects.rs:139-190 | a parsed interval's name is the parsed string |
| MarketData.ParseName | src/domain/market_data/value_objects.rs:154-195 | parsing the exchange name of any interval yields that interval |
| MarketData.NamesDistinct | src/domain/market_data/value_objects.rs:154-190 | distinct intervals have distinct names |
| MarketData.MinuteAndMonthDiffer | src/domain/market_data/value_objects.rs:158-190 | "1m" and "1M" name different intervals (parsing is case-sensitive) |
| MarketData.DurationMs | src/domain/market_data/value_objects.rs:197-209 | every duration is positive and a whole number of seconds |
| MarketData.DurationValues | src/domain/market_data/value_objects.rs:197-209 | the nine durations, from 2000 ms to 2592000000 ms |
| MarketData.DurationIncreasing | src/domain/market_data/value_objects.rs:197-209 | durations grow strictly in declaration order |
| BoundedSeq.KeepNewest | src/app.rs:507-510 | the result has the capped length and is the tail of the input |
| BoundedSeq.KeepNewestAppend | src/app.rs:503-510 | trimming, appending and trimming again equals appending and trimming once |
| CandleSeries.Upserted | src/app.rs:496-514 | empty series: just the candle; same timestamp as the last: last replaced, length and earlier candles unchanged; newer: appended as the last, oldest dropped down to 300, survivors unchanged; older: series unchanged |
| CandleSeries.UpsertKeepsOrder | src/app.rs:496-514 | strictly increasing timestamps stay strictly increasing |
| CandleSeries.UpsertBounded | src/app.rs:503-511 | a series within capacity stays within capacity |
| CandleSeries.StaleReplayIgnored | src/app.rs:499-511 | a candle no newer than some earlier candle changes nothing |
| CandleSeries.FeedAscending | src/app.rs:503-511 | feeding ascending candles one by one leaves the newest 300 of old and new together |
| CandleSeries.Feed305 | src/app.rs:503-511 | 305 ascending candles fed into an empty series leave exactly the last 300 |
| CandleSeries.CandleStore.constructor | src/app.rs:25-26 | empty series, count 0, price 0 |
| CandleSeries.CandleStore.LoadHistorical | src/app.rs:476-482 | the series becomes the history, the count its length, the price its last close (unchanged for an empty history) |
| CandleSeries.CandleStore.Upsert | src/app.rs:489-518 | the series becomes `Upserted` of the old one, the published count its length, the published price the candle's close; sortedness and capacity are preserved |
| DebugLog.Logged | src/app.rs:80-92 | paused: unchanged; otherwise the line becomes the last entry, the length grows by one up to 100, and the surviving older lines are unchanged |
| DebugLog.LogAllKeepsNewest | src/app.rs:80-92 | logging lines in order keeps exactly the newest 100 of old and new together |
| DebugLog.LogBuffer.constructor | src/app.rs:21-22 | empty history, not paused |
| DebugLog.LogBuffer.Log | src/app.rs:80-92 | the history becomes `Logged` of the old one; the bound of 100 is preserved |
| DebugLog.LogBuffer.TogglePause | src/app.rs:414-427 | the switch flips; pausing records nothing, resuming records the resume notice |
| DebugLog.LogBuffer.Clear | src/app.rs:433-438 | the history becomes just the cleared notice (empty while paused) |
| ChartPrimitives.Quad | src/infrastructure/rendering/renderer/geometry.rs:148-155 | six vertices with the given tag, each at a corner of the rectangle, starting bottom-left and with the top-right as the fifth |
| ChartPrimitives.CandleX | src/infrastructure/rendering/renderer/geometry.rs:8-12 | every shown slot lies left of the right edge, and right of the left edge while at most 300 candles are shown; `CandleXSpacing` and `CandleXRightAligned` state the spacing and the right alignment |
| ChartPrimitives.CandleXSpacing | src/infrastructure/rendering/renderer/geometry.rs:8-12 | neighbouring slots are exactly 2/300 apart |
| ChartPrimitives.CandleXRightAligned | src/infrastructure/rendering/renderer/geometry.rs:8-12 | the newest candle sits at 1 − 1/300 whatever the window size |
| ChartPrimitives.PriceY | src/infrastructure/rendering/renderer/geometry.rs:106-111 | for an increasing range, a price inside the range lands in the candle band [-0.5, 0.8]; `PriceYMonotone` shows it preserves order |
| ChartPrimitives.PriceYMonotone | src/infrastructure/rendering/renderer/geometry.rs:106-111 | for an increasing range the price mapping preserves order (both ways) and maps the range onto [-0.5, 0.8] |
| ChartOverlays.GridLevelEvenlySpaced | src/infrastructure/rendering/renderer/geometry.rs:361-363 | grid level i lands at -0.5 + 1.3·i/8 whatever the price range |
| ChartOverlays.VerticalLineDrawn | src/infrastructure/rendering/renderer/geometry.rs:380-385 | each of the nine vertical lines falls on an existing candle |
| ChartOverlays.HorizontalLinesCount | src/infrastructure/rendering/renderer/geometry.rs:361-375 | six vertices per horizontal level |
| ChartOverlays.VerticalLinesCount | src/infrastructure/rendering/renderer/geometry.rs:378-399 | six vertices per vertical line once there is a candle |
| ChartOverlays.GridCount | src/infrastructure/rendering/renderer/geometry.rs:353-399 | 96 grid vertices when there is a candle, 42 otherwise |
| ChartOverlays.CreateGridLines | src/infrastructure/rendering/renderer/geometry.rs:347-408 | the loops build exactly `GridLines`, 96 or 42 vertices |
| ChartOverlays.VerticalLineAt | src/infrastructure/rendering/renderer/geometry.rs:382-397 | one iteration of the vertical loop: a line at candle i·(count/10) exactly when that candle exists, otherwise nothing |
| ChartOverlays.CreateVerticalLines | src/infrastructure/rendering/renderer/geometry.rs:378-399 | the vertical loop builds exactly the nine vertical lines |
| ChartOverlays.MaxVolumeBounds | src/infrastructure/rendering/renderer/geometry.rs:423-426 | the max-volume fold is not negative and bounds every volume |
| ChartOverlays.BarCenterX | src/infrastructure/rendering/renderer/geometry.rs:443-444 | a bar's centre stays within [-1, 1] |
| ChartOverlays.BarTopInBand | src/infrastructure/rendering/renderer/geometry.rs:445-447 | a bar's top lies in the volume band [-1.0, -0.6] |
| ChartOverlays.VolumeBarsUpToShape | src/infrastructure/rendering/renderer/geometry.rs:442-464 | six vertices per bar, in the band, bar j tagged by its own candle's direction |
| ChartOverlays.VolumeBarsShape | src/infrastructure/rendering/renderer/geometry.rs:415-464 | no bars for an empty slice or zero max volume; otherwise six vertices per candle, all in [-1.0, -0.6], bullish exactly when close ≥ open |
| ChartOverlays.CreateVolumeBars | src/infrastructure/rendering/renderer/geometry.rs:411-475 | the loop builds exactly `VolumeBars` |
| ChartOverlays.PriceToNdc | src/infrastructure/rendering/renderer/geometry.rs:279 | for an increasing range, a price inside the range lands in the indicator band [-0.8, 0.8] |
| ChartOverlays.IndicatorBandDiffers | src/infrastructure/rendering/renderer/geometry.rs:106-111 | for an increasing range the indicator mapping of line 279 meets the candle mapping of the same price only at the top of the range (the indicator band is taller than the candle band) |
| ChartOverlays.SmaAt | src/infrastructure/rendering/renderer/geometry.rs:283-290 | the mean of the 20 trailing closes; not negative when those closes are not |
| ChartOverlays.SmaWithinCloses | src/infrastructure/rendering/renderer/geometry.rs:283-290 | the SMA lies between any lower and upper bound of the 20 closes it averages |
| ChartOverlays.EmaAt | src/infrastructure/rendering/renderer/geometry.rs:296-311 | the EMA seeded with the first close and smoothed with k = 2/13; not negative when the closes so far are not |
| ChartOverlays.EmaWithinCloses | src/infrastructure/rendering/renderer/geometry.rs:296-311 | the EMA never leaves any range that holds every close seen so far |
| ChartOverlays.SmaLine | src/infrastructure/rendering/renderer/geometry.rs:282-293 | the SMA loop builds exactly the SMA points: one per candle from index 19 on |
| ChartOverlays.EmaLine | src/infrastructure/rendering/renderer/geometry.rs:295-312 | the running-EMA loop builds exactly the EMA points: one per candle from index 11 on, the EMA carried across iterations equal to `EmaAt` |
| ChartOverlays.SmaPointsShape | src/infrastructure/rendering/renderer/geometry.rs:282-293 | one SMA point per candle from index 19 on, point j for candle j + 19 |
| ChartOverlays.EmaPointsShape | src/infrastructure/rendering/renderer/geometry.rs:296-312 | one EMA point per candle from index 11 on, point j for candle j + 11 |
| ChartOverlays.MovingAveragesCounts | src/infrastructure/rendering/renderer/geometry.rs:269-331 | nothing below 20 candles (EMA-12 included); otherwise count − 19 SMA points and count − 11 EMA points, SMA line first |
| ChartOverlays.SumConstant | src/infrastructure/rendering/renderer/geometry.rs:285-288 | the close sum of equal closes is their number times the close |
| ChartOverlays.AveragesOfConstant | src/infrastructure/rendering/renderer/geometry.rs:283-311 | on equal closes the 20-candle mean and the EMA (seeded with the first close, k = 2/13) both equal that close |
| ChartOverlays.LineXMatchesCandleX | src/infrastructure/rendering/renderer/geometry.rs:275-290 | indicator points share the candles' x slots exactly when the window holds 300 candles |
| ChartOverlays.CreateMovingAverages | src/infrastructure/rendering/renderer/geometry.rs:261-344 | the SMA line, then the EMA line when there are at least 12 candles, each passed to the polyline builder only when it has points: exactly `MovingAverages` |
| ChartGeometry.VisibleCount | src/infrastructure/rendering/renderer/geometry.rs:39-41 | the window size is at most the candle count and at least min(10, count) |
| ChartGeometry.DefaultZoomWindow | src/infrastructure/rendering/renderer/geometry.rs:39-41 | at zoom 1 the window is min(300, count) |
| ChartGeometry.NonPositiveZoomWindow | src/infrastructure/rendering/renderer/geometry.rs:39-41 | zero zoom shows every candle, negative zoom min(10, count) |
| ChartGeometry.ZoomInShowsFewer | src/infrastructure/rendering/renderer/geometry.rs:38-41 | a larger positive zoom never shows more candles |
| ChartGeometry.VisibleWindow | src/infrastructure/rendering/renderer/geometry.rs:39-43 | the window is exactly the newest `VisibleCount` candles, in order |
| ChartGeometry.MinLowBounds | src/infrastructure/rendering/renderer/geometry.rs:52-55 | the low scan ends no higher than its start and every low, at one of them |
| ChartGeometry.MaxHighBounds | src/infrastructure/rendering/renderer/geometry.rs:52-55 | the high scan ends no lower than its start and every high, at one of them |
| ChartGeometry.PriceBounds | src/infrastructure/rendering/renderer/geometry.rs:48-60 | a pinned viewport is used as is; otherwise the scanned span widened to 110%, 5% below the lowest low |
| ChartGeometry.AutoscaleCovers | src/infrastructure/rendering/renderer/geometry.rs:48-60 | for consistent candles the autoscaled range is ordered and holds every low and high of the window |
| ChartGeometry.FlatWindow | src/infrastructure/rendering/renderer/geometry.rs:48-84 | a flat window at p under viewport bounds at q is rejected when p = q and drawn when the two are at least 0.01 apart |
| ChartGeometry.CandleWidth | src/infrastructure/rendering/renderer/geometry.rs:99-101 | the candle width stays within [0.002, 0.1] |
| ChartGeometry.ActualBodyTop | src/infrastructure/rendering/renderer/geometry.rs:134-143 | the drawn body is at least 0.005 tall, reaches the higher of open and close, and is not raised when already that tall |
| ChartGeometry.CandleQuadsShape | src/infrastructure/rendering/renderer/geometry.rs:133-186 | six body vertices (tagged bullish iff close_y ≥ open_y, at least 0.005 tall), plus six per wick, upper iff high_y > drawn body top, lower iff low_y < body bottom |
| ChartGeometry.BullishIffCloseAtLeastOpen | src/infrastructure/rendering/renderer/geometry.rs:106-145 | for an increasing range a body is bullish exactly when its candle closed at or above its open |
| ChartGeometry.CandlesUpToCount | src/infrastructure/rendering/renderer/geometry.rs:103-187 | between 6 and 18 vertices per candle |
| ChartGeometry.PriceLine | src/infrastructure/rendering/renderer/geometry.rs:189-206 | six vertices at the newest close's height exactly when the window is non-empty |
| ChartGeometry.FrameUniforms | src/infrastructure/rendering/renderer/geometry.rs:236-255 | a frame's uniform block carries four-element viewport, time-range and render-parameter arrays |
| ChartGeometry.FrameVerticesShape | src/infrastructure/rendering/renderer/geometry.rs:103-215 | a frame starts with the candles' quads and has at least 6 per candle + 6 + 96 vertices |
| ChartGeometry.Geometry | src/infrastructure/rendering/renderer/geometry.rs:15-258 | no candles: no vertices and default uniforms; default uniforms exactly when there are no candles or the settled range is degenerate, and then no vertices |
| ChartGeometry.GeometryShape | src/infrastructure/rendering/renderer/geometry.rs:98-257 | a drawn frame shows at least one candle, starts with the candles' quads, has at least 6 per candle + 102 vertices, and its uniforms carry the settled range and the window length |
| ChartGeometry.SettlePriceRange | src/infrastructure/rendering/renderer/geometry.rs:47-60 | the scan loop and padding produce exactly `PriceBounds` |
| ChartGeometry.EmitCandle | src/infrastructure/rendering/renderer/geometry.rs:104-186 | one iteration of the candle loop (body top raised to the minimum height, each wick appended under its own guard) yields exactly that candle's `CandleQuads` |
| ChartGeometry.CreateCandleVertices | src/infrastructure/rendering/renderer/geometry.rs:103-206 | the candle loop and the price line produce exactly the quads of every window candle, in order (`CandlesUpTo`), followed by `PriceLine` |
| ChartGeometry.CreateFrame | src/infrastructure/rendering/renderer/geometry.rs:98-257 | the drawing part produces exactly `FrameVertices` and `FrameUniforms` |
| ChartGeometry.CreateGeometry | src/infrastructure/rendering/renderer/geometry.rs:15-258 | the synthesis produces exactly `Geometry` |
| Coordinator.ChartCoordinator.constructor | src/application/coordinator.rs:20-34 | not initialised, no renderer, no chart, the given canvas id and size |
| Coordinator.ChartCoordinator.InitializeRenderer | src/application/coordinator.rs:37-48 | the renderer is installed and the coordinator initialised; chart, id and size unchanged |
| Coordinator.ChartCoordinator.RenderChart | src/application/coordinator.rs:51-61 | uninitialised: "not initialized" error; no chart or renderer: "not available" error; otherwise exactly the renderer's result for the chart at the renderer's current size |
| Coordinator.ChartCoordinator.SetChart | src/application/coordinator.rs:64-70 | the chart is replaced and nothing else changes |
| Coordinator.ChartCoordinator.GetChart | src/application/coordinator.rs:73-75 | returns the current chart |
| Coordinator.ChartCoordinator.Resize | src/application/coordinator.rs:83-95 | the size and the renderer's size become the new size; chart, id and initialisation unchanged |
| Coordinator.ChartCoordinator.IsInitialized | src/application/coordinator.rs:98-100 | initialised exactly when a renderer is installed |
| Coordinator.ChartCoordinator.GetPerformanceInfo | src/application/coordinator.rs:103-109 | the renderer's report, or the fixed not-initialised JSON without a renderer |
| Coordinator.LifeCycle | src/application/coordinator.rs:20-61 | a fresh coordinator refuses to draw; after chart, renderer and a resize it returns exactly the renderer's result for that chart at the new size |

## Left out

- **Network and transport.** The WebSocket and HTTP clients, JSON decoding and the stream
  orchestration around the upsert are not modelled. The model starts from decoded candles.
- **UI, rendering back-end and global state.**
  - The Leptos components, signals and tooltips are not modelled.
  - The wgpu device, buffer uploads, the render loop and its caches are not modelled.
  - The thread-local global renderer and coordinator are not modelled.
- **Floating point.**
  - f32/f64 rounding, the f64→f32 casts and the u64→f64 price conversions are not modelled;
    values are exact reals.
  - `F32_EPSILON` is used only as a threshold.
  - NaN zoom levels and NaN prices inside already-built candles are not modelled.
  - Colour constants and the identity view matrix in the uniform block are not modelled.
- **Upper-casing.** `MarketData.NewSymbol` and `MarketData.SymbolFrom` upper-case ASCII
  letters only. Rust's Unicode case mapping is not modelled.
- **Error texts.** Errors of the value objects are structured values (`InvalidPrice(v)`,
  `EmptySymbol`) rather than the formatted message strings.
- **Sizes.** The coordinator's `u32` sizes are `nat`.
- **Log formatting.** Log lines arrive already formatted: the time provider and formatting
  are outside the model. `DebugLog.LogBuffer.TogglePause` and `DebugLog.LogBuffer.Clear`
  assume the installed global logger is the console's logger. Its installation is not part of
  this model.
- **Logging calls.** All `log_info!` and `get_logger()` diagnostics in the geometry and the
  coordinator are not modelled.
- **Chart.** `domain::chart::Chart` is not part of this model.
  - `get_series_for_zoom` is taken as already done: `CreateGeometry` receives its candles.
  - The coordinator's `Chart` is a datatype of candles and viewport.
  - `get_chart_mut`, which lends out a mutable reference, is not modelled.
- **Renderer.**
  - `Coordinator.ChartCoordinator.Resize`: the renderer's own `resize` is not part of this
    model. The model records the new size in the renderer value.
  - The renderer's draw call and performance report are uninterpreted fields.
- **GPU structures.** `ChartUniforms::new` and the `CandleVertex` constructors belong to the
  GPU structures, which are not part of this model.
  - Default uniforms are the constant `DefaultUniforms`.
  - A vertex is its position and a tag of what it belongs to.
  - `create_indicator_line_vertices` is the parameter `lineVertices`.
- **Unused values.** In `create_geometry`, `step_size` and `_candle_width` (lines 63-66) feed
  only a log message, so they are not modelled.
- **Data version counter.** The code has no counter of successful updates that a render
  cache could compare against, so the model has none either.
- **Where a natural expectation and the code part ways, the model follows the code:**
  - **Flat windows.** One might expect an all-flat window always to be rejected as
    degenerate. In the code the autoscale scan starts from the viewport's own (equal) bounds
    rather than from ±infinity. A flat window is therefore rejected only when those bounds lie
    at, or very near, the flat price; otherwise it is drawn (`ChartGeometry.FlatWindow`).
  - **Out-of-order candles.** The code compares an update only with the last stored candle.
    An older one is not reported: it is ignored silently, without an error and without a log
    line (`CandleSeries.Upserted`).
  - **Indicator placement.** The moving-average lines do not share the candles' axes. Their
    x slots spread over the whole width and match the candles' only when 300 candles are
    shown (`ChartOverlays.LineXMatchesCandleX`). Their vertical band [-0.8, 0.8] is taller
    than the candles' [-0.5, 0.8], so an average meets the height of its own price on the
    candle axis only at the top of the range (`ChartOverlays.IndicatorBandDiffers`).
