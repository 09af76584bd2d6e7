# Stock dashboard core in Dafny

This project models the deterministic rules inside a mock stock dashboard.
It covers three front-end scripts:

- **js/analysis.js** (`MarketAnalysis`): the simple moving average, the mock
  31-day price series, the technical-chart data, the mock fundamental and
  sentiment figures, and the tool switcher that marks buttons and panels.
- **js/predictions.js** (`StockPredictor`): the mock stock data, the
  two-line prediction chart, the company-name lookup and the symbol search.
- **js/main.js** (`MarketData`): the index ticker, a random walk over three
  base prices.

Arithmetic is exact (`real`), not IEEE doubles. Every `Math.random()` call is
an injected draw `r` with `0 <= r < 1`: a parameter seen by `IsDraw`, or a
sequence seen by `AreDraws`. Calendar dates are integer day offsets from today
(0 is today, -1 yesterday, 1 tomorrow). Chart objects are reduced to their
data arrays. The page elements the scripts read and write are fields or
parameters:
- the tool buttons and analysis panels are `Toggle` lists;
- the ticker's elements are the set of element ids present on the page;
- the search box is an input string.

Modules:
- `Basics`: chart `null`-or-number slots (`Option`), draws, the shared
  `Math.random() * 50 + 150` price and `Math.round`.
- `JsText`: the string built-ins the scripts use (`toLowerCase`,
  `toUpperCase`, `includes`, `split(' ')[0]`), ASCII case mapping only.
- `Analysis`, `Predictions`, `MarketTicker`: one module per script.

The loops stay loops:
- `calculateMA`, `generateMockMarketData` and `getMockStockData` are methods.
  Each is proved equal to a specification function, and the lemmas state the
  properties of that function.
- The objects that change state are classes: `MarketAnalysis`,
  `StockPredictor` and `MarketData`. Their methods state the whole new state
  in terms of the old one.

Where the model could have idealised the code, it follows the code:
- The prediction chart's historical line is the 31 historical prices as they
  are. It is not padded with `null` to the 61 labels.
- `calculateMA` does not reject a window of zero or less (see "Left out").
- Buttons and panels are selected by substring containment, as the code
  does. The model does not use enumerated identifiers.

## Model

| member | source | states |
|---|---|---|
| `Basics.MockPrice` | js/analysis.js:205 | a mock price `r*50+150` lies in [150, 200), and the draw can be recovered from it |
| `Basics.Round` | js/predictions.js:171 | `Math.round` gives the integer within one half of x, with halves rounded up |
| `Basics.RoundWithin` | js/predictions.js:177 | rounding a value of [lo, hi) gives an integer in [lo, hi] |
| `Basics.DirectionOf` | js/main.js:27 | a change is classed `up` exactly when it is not negative, `down` otherwise |
| `JsText.ToLower` | js/analysis.js:35 | lower-casing keeps the length, turns each capital into its lower-case letter (code point + 32), leaves no capital and keeps every other character |
| `JsText.ToUpper` | js/predictions.js:30 | upper-casing keeps the length, turns each lower-case letter into its capital (code point - 32), leaves no lower-case letter and keeps every other character |
| `JsText.Includes` | js/analysis.js:35-42 | `includes(t)` is false when t is longer than s and true when t is a prefix of s, the empty text among them |
| `JsText.IncludesIff` | js/analysis.js:42 | `includes(t)` holds exactly when t occurs at some position of s (both directions) |
| `JsText.FirstWord` | js/analysis.js:22 | `split(' ')[0]` is a prefix of the text with no space, and is either the whole text or followed by a space |
| `JsText.FirstWordUnique` | js/analysis.js:22 | those three properties determine that first word uniquely |
| `Analysis.Sum` | js/analysis.js:188 | the `reduce` sum starts from 0, and a single value sums to itself |
| `Analysis.SumAppend` | js/analysis.js:188 | the `reduce` sum of a concatenation is the sum of the parts |
| `Analysis.SumBounds` | js/analysis.js:188 | a sum of n values from [lo, hi) lies in [n*lo, n*hi) |
| `Analysis.MovingAverage` | js/analysis.js:182-193 | the average series has exactly one entry per price |
| `Analysis.CalculateMA` | js/analysis.js:182-193 | the push loop builds exactly the moving-average series: `null` before a full window, then the window mean |
| `Analysis.MovingAverageWindow` | js/analysis.js:188-189 | each defined entry is the sum of exactly `period` consecutive prices ending at its own index, divided by `period` |
| `Analysis.MovingAverageAbsence` | js/analysis.js:184-186 | an entry is `null` exactly when its index is below `period-1`; a window longer than the series gives all `null`; an empty series gives an empty result |
| `Analysis.MovingAverageSlide` | js/analysis.js:188-189 | consecutive defined entries differ by (entering price - leaving price)/period, the running-sum form of the average |
| `Analysis.MovingAverageBounds` | js/analysis.js:189 | when all prices lie in [lo, hi), so does every defined average |
| `Analysis.MeanBounds` | js/analysis.js:189 | a sum in [p*lo, p*hi) divided by p > 0 lies in [lo, hi) |
| `Analysis.MovingAverageExample` | js/analysis.js:182-193 | the average of [150, 160, 170, 180] over 2 is [null, 155, 165, 175] |
| `Analysis.MockMarketSeries` | js/analysis.js:196-209 | the mock series has 31 dates, running from -30 to 0 one day apart, and 31 prices in [150, 200) |
| `Analysis.GenerateMockMarketData` | js/analysis.js:196-209 | the counting-down loop builds exactly that series from its 31 draws |
| `Analysis.TechnicalPayload` | js/analysis.js:162-165 | the chart's labels are the dates and its price line the prices; both averages have one entry per price, MA(20) defined from index 19 on and MA(50) from index 49 on |
| `Analysis.MockTechnicalChart` | js/analysis.js:160-168 | on a mock series, the labels are the dates and the price line is the prices; MA(20) has 19 leading `null`s then 12 values in [150, 200); MA(50) is all `null` |
| `Analysis.MockFundamentalMetrics` | js/analysis.js:212-221 | each of the six ratios lies in its fixed range, for example P/E in [15, 35) |
| `Analysis.MockSentimentData` | js/analysis.js:224-231 | the three scores lie in [0, 100) and the analyst rating in [0, 5) |
| `Analysis.SentimentMood` | js/analysis.js:258-259 | a sentiment score is classed positive exactly when it is at least 50 |
| `Analysis.MockSentimentMood` | js/analysis.js:258-259 | a mock sentiment is classed positive exactly when its draw is at least 1/2, and negative otherwise |
| `Analysis.MockIndicatorValue` | js/analysis.js:234-236 | a mock indicator value lies in [0, 100) |
| `Analysis.Dispatch` | js/analysis.js:126-136 | a name selects a tool only when it is that tool's id; every other string selects nothing |
| `Analysis.DispatchToolId` | js/analysis.js:126-136 | each of the three tool ids dispatches to its own tool |
| `Analysis.ClickedTool` | js/analysis.js:22 | the clicked tool name is a space-free prefix of the lower-cased button text |
| `Analysis.SelectButtons` | js/analysis.js:33-38 | selection keeps the number of buttons |
| `Analysis.SelectPanels` | js/analysis.js:40-45 | selection keeps the number of panels |
| `Analysis.SelectionIff` | js/analysis.js:33-45 | after a switch, a button is active exactly when `tool` occurs in its lower-cased text, and a panel exactly when `tool` occurs in its id; every text and id is kept |
| `Analysis.ClickedButtonActive` | js/analysis.js:18-26 | the clicked button is always active after the switch it causes |
| `Analysis.AnalysisFor` | js/analysis.js:125-157 | `updateAnalysis` runs nothing for an unknown tool and one branch for each known tool; the sentiment class is positive exactly when the score is at least 50 |
| `Analysis.MarketAnalysis.constructor` | js/analysis.js:3-7 | the current tool starts as `technical`, with no chart |
| `Analysis.MarketAnalysis.SetupCharts` | js/analysis.js:52-62 | the technical chart exists with empty data; nothing else changes |
| `Analysis.MarketAnalysis.UpdateCharts` | js/analysis.js:160-168 | when the chart exists, its data becomes the labels, the price line, MA(20) and MA(50) of the series; otherwise nothing changes |
| `Analysis.MarketAnalysis.Init` | js/analysis.js:10-15 | after `init` the chart shows a fresh mock series and its averages |
| `Analysis.MarketAnalysis.UpdateAnalysis` | js/analysis.js:125-137 | the branch run is the one the current tool names; only the technical branch changes the chart |
| `Analysis.MarketAnalysis.SwitchTool` | js/analysis.js:29-49 | the buttons and panels are re-marked by substring containment, the current tool becomes `tool`, and its analysis runs |
| `Analysis.MarketAnalysis.ClickToolButton` | js/analysis.js:20-24 | a click switches to the first word of the lower-cased button text, that button ends up active, and the chart changes only when the switch runs the technical analysis on an existing chart |
| `Predictions.GrowthBound` | js/predictions.js:169 | for a positive price p, the price p*(1+r*g) lies in [p, p*(1+g)) |
| `Predictions.Grown` | js/predictions.js:169 | a predicted price is at least the current price and below `currentPrice*(1+growth)` |
| `Predictions.ScaleBound` | js/predictions.js:170 | a change `r*m` lies in [0, m) |
| `Predictions.ConfidenceBound` | js/predictions.js:171 | a rounded confidence lies in [lo, lo+15] |
| `Predictions.Predict` | js/predictions.js:166-185 | each horizon keeps its label and bounds its price, change and integer confidence |
| `Predictions.GetCompanyName` | js/predictions.js:190-200 | each of the six listed symbols gives its listed name; any other symbol gives the symbol followed by " Corp" |
| `Predictions.CompanyNames` | js/predictions.js:191-199 | exactly six symbols are listed, e.g. AAPL gives "Apple Inc." and IBM gives "IBM Corp" |
| `Predictions.MockStockData` | js/predictions.js:133-187 | 31 historical days (-30..0) and 30 future days (1..30), all prices in [150, 200); the current price is the last historical price; the predictions follow the horizons in order, with their bounds |
| `Predictions.MockPredictionRanges` | js/predictions.js:166-185 | the periods are 24h, 7d and 30d in order; prices lie below cp*1.05, cp*1.1 and cp*1.2; changes in [0,5), [0,10) and [0,20); confidences in [80,95], [75,90] and [70,85] |
| `Predictions.GetMockStockData` | js/predictions.js:140-186 | the two counting loops build exactly that data from the 70 draws |
| `Predictions.Nulls` | js/predictions.js:100 | `Array(n).fill(null)` has n entries |
| `Predictions.Lift` | js/predictions.js:100 | the predicted prices become one data point each |
| `Predictions.PredictionPayload` | js/predictions.js:93-103 | the labels are the historical then the future dates; the historical line is the historical prices, unpadded; the predicted line has one `null` per historical price, then the predicted prices in order |
| `Predictions.MockPredictionChart` | js/predictions.js:94-100 | on mock data there are 61 labels, -30..30; the predicted line matches the label length, with 31 leading `null`s and values in [150, 200); each label gets its value from exactly one line |
| `Predictions.DisplayFor` | js/predictions.js:106-130 | the heading is "symbol - company"; there is one card per prediction, styled `up` exactly when its change is not negative |
| `Predictions.MockCardsUp` | js/predictions.js:127-128 | every mock prediction card is styled `up` |
| `Predictions.SearchSymbol` | js/predictions.js:28-35 | the search box is ignored exactly when it is empty; otherwise its upper-cased text is the symbol |
| `Predictions.StockPredictor.constructor` | js/predictions.js:3-7 | there is no current symbol and no chart |
| `Predictions.StockPredictor.SetupChart` | js/predictions.js:49-67 | the chart exists with empty data |
| `Predictions.StockPredictor.UpdateChart` | js/predictions.js:93-103 | the chart data becomes the payload of the stock data |
| `Predictions.StockPredictor.LoadStock` | js/predictions.js:38-46 | the current symbol, the display and the chart all come from the mock data for that symbol |
| `Predictions.StockPredictor.SearchStock` | js/predictions.js:28-35 | an empty search box changes nothing; otherwise the upper-cased symbol is loaded |
| `Predictions.StockPredictor.Init` | js/predictions.js:10-15 | `init` loads AAPL: the symbol, the chart and the whole display (current price and cards included) come from AAPL's mock data, headed "AAPL - Apple Inc." |
| `MarketTicker.Change` | js/main.js:20 | a perturbation lies in [-5, 5) and is `up` exactly when its draw is at least 1/2 |
| `MarketTicker.Stepped` | js/main.js:15-32 | a tick keeps the number of entries |
| `MarketTicker.Reported` | js/main.js:15-27 | a tick makes at most one report per entry |
| `MarketTicker.PresentIndices` | js/main.js:15-18 | the listed positions are entries whose element exists, in strictly increasing table order, so each is listed once |
| `MarketTicker.PresentIndicesComplete` | js/main.js:15-18 | every entry whose element exists is listed |
| `MarketTicker.SteppedKeepsKeys` | js/main.js:15-32 | a tick changes no key and no element, so the keys stay distinct |
| `MarketTicker.SteppedPrice` | js/main.js:18-31 | an entry whose element exists moves to `old + change`, within 5 of the old price; an entry whose element is absent is unchanged |
| `MarketTicker.TwoTicksCompound` | js/main.js:30 | two ticks give P + d1 + d2; the price is never reset to its seed |
| `MarketTicker.ReportedAt` | js/main.js:18-27 | one report per entry whose element exists, in table order, each carrying the new base price (old price plus change) and `up` exactly when the change is not negative |
| `MarketTicker.InitialPrices` | js/main.js:4-8 | the seed table maps sp500, nasdaq and dow to 4890.97, 15360.28 and 37490.17 |
| `MarketTicker.MarketData.constructor` | js/main.js:3-11 | the table starts at the seed prices, with an update interval of 5000 ms |
| `MarketTicker.MarketData.UpdatePrices` | js/main.js:14-33 | the tick rewrites the table to its stepped form, returns its reports and keeps the keys distinct |

## Left out

- python/stock_predictor.py is not part of this model. It relies on NumPy
  noise, scikit-learn regression and scaling, and an HTTP request handler.
- Chart.js is out of scope: widget construction, its options and
  `chart.update()`. Only the data arrays assigned to a chart are modelled.
- Page plumbing is out of scope: DOM queries, `addEventListener`, the
  `DOMContentLoaded` bootstraps and `async`. The pages' elements are the
  fields and parameters described above.
- `startUpdates` and its `setInterval` timer (js/main.js:36-39) are out of
  scope. One tick is one `UpdatePrices` call.
- Formatting is out of scope: `toLocaleDateString`, `toFixed`, and
  `Intl.NumberFormat` in `formatPrice` and `formatPercentage`. Likewise
  `handleError` (js/main.js:84-103), which only logs. Dates are day offsets
  and figures are unformatted reals.
- The dark-mode preference in `localStorage`, the navigation toggle and the
  scroll animation (js/main.js:48-81) are browser state and UI.
- `updateIndicators` (js/analysis.js:171-179) and `setupIndicators`
  (js/analysis.js:104-116) are left out. They rewrite and wire page rows. Only
  the bound on one generated value is stated (`MockIndicatorValue`). Because
  of this, the technical branch of `UpdateAnalysis` does not draw indicator
  values.
- `displayFundamentalMetrics` and the score text of `displaySentimentData`
  write page text. The model returns the figures and the
  `positive`/`negative` class as an `Analysis` value.
- `CalculateMA`: a window of zero or less is not modelled. The `requires`
  asks for `period >= 1`.
  - The code does not check the window. A window of 0 averages an empty slice
    (0/0, NaN). A negative window gives 0.
  - The only callers pass 20 and 50.
- `ClickToolButton` and `ClickedButtonActive` take the clicked element to be
  the button itself. The listener reads `e.target.textContent`, and `e.target`
  is the innermost element under the pointer; a click on a child element of
  the button would read that child's text instead, and the button might then
  not end up active.
- `JsText.ToLower` and `JsText.ToUpper` map ASCII letters only. JavaScript
  maps all of Unicode.
- `GetCompanyName`: JavaScript would also find inherited object properties,
  for example `constructor`. Every such name contains lower-case letters, so
  none survives the upper-casing of a searched symbol.
- `MarketData.UpdatePrices` gives entry i the draw `rs[i]`. The source calls
  `Math.random()` only for entries whose element exists, in table order.
  Either way every present entry gets one independent draw, so both reach the
  same set of outcomes.
- `MarketData`: the ticker does not keep prices positive, and the model
  claims no such invariant. Over enough ticks the random walk can go below
  zero.
- `StockPredictor.UpdateChart` requires the chart to exist. The source would
  throw on a `null` chart, and its only path there runs `setupChart` first.
- `DisplayFor` makes one card per prediction, so it assumes the page has
  three prediction cards.
- The `apiEndpoint` field, the `indicators` field and `charts` entries other
  than `technical` are never used by the code, and are left out.
