/** The stock-prediction panel (`StockPredictor` in js/predictions.js): the
    mock stock data (31 days of history, 30 days of predicted prices and three
    horizon predictions), the two-line chart payload built from it, the
    company-name lookup and the symbol search. */
module Predictions {
  import opened Basics
  import opened JsText

  // ---------------------------------------------------------------------
  // Horizon predictions
  // ---------------------------------------------------------------------

  /** One prediction horizon: its label, the largest relative price rise, the
      largest change figure and the lowest confidence. */
  datatype Horizon = Horizon(period: string, growth: real, maxChange: real, minConfidence: int)

  /** The three horizons of `getMockStockData`, in the order they are listed. */
  const HORIZONS: seq<Horizon> := [
    Horizon("24h", 0.05, 5.0, 80),
    Horizon("7d", 0.1, 10.0, 75),
    Horizon("30d", 0.2, 20.0, 70)
  ]

  datatype Prediction = Prediction(period: string, price: real, change: real, confidence: int)

  lemma GrowthBound(currentPrice: real, growth: real, r: real, price: real)
    requires growth > 0.0 && IsDraw(r)
    requires price == currentPrice * (1.0 + r * growth)
    ensures currentPrice > 0.0 ==> currentPrice <= price
    ensures currentPrice > 0.0 ==> price < currentPrice * (1.0 + growth)
  {
    assert 0.0 <= r * growth < growth by {
      assert r * growth < 1.0 * growth;
    }
    assert price == currentPrice + currentPrice * (r * growth);
    assert currentPrice * (1.0 + growth) == currentPrice + currentPrice * growth;
    assert currentPrice > 0.0 ==> currentPrice * (r * growth) < currentPrice * growth;
  }

  /** `currentPrice * (1 + r * growth)`: at least the current price and less
      than `currentPrice * (1 + growth)` when the current price is positive. */
  function Grown(currentPrice: real, growth: real, r: real): (x: real)
    requires growth > 0.0 && IsDraw(r)
    ensures currentPrice > 0.0 ==> currentPrice <= x
    ensures currentPrice > 0.0 ==> x < currentPrice * (1.0 + growth)
  {
    var price := currentPrice * (1.0 + r * growth);
    GrowthBound(currentPrice, growth, r, price);
    price
  }

  lemma ScaleBound(r: real, m: real)
    requires IsDraw(r) && m > 0.0
    ensures 0.0 <= r * m < m
  {
    assert r * m < 1.0 * m;
  }

  lemma ConfidenceBound(r: real, lo: int)
    requires IsDraw(r)
    ensures lo <= Round(r * 15.0 + lo as real) <= lo + 15
  {
    RoundWithin(r * 15.0 + lo as real, lo, lo + 15);
  }

  /** One entry of `predictions`: price `currentPrice * (1 + r1 * growth)`,
      change `r2 * maxChange`, confidence `Math.round(r3 * 15 + minConfidence)`. */
  function Predict(currentPrice: real, h: Horizon, r1: real, r2: real, r3: real): (p: Prediction)
    requires IsDraw(r1) && IsDraw(r2) && IsDraw(r3)
    requires h.growth > 0.0 && h.maxChange > 0.0
    ensures p.period == h.period
    ensures currentPrice > 0.0 ==> currentPrice <= p.price < currentPrice * (1.0 + h.growth)
    ensures 0.0 <= p.change < h.maxChange
    ensures h.minConfidence <= p.confidence <= h.minConfidence + 15
  {
    ScaleBound(r2, h.maxChange);
    ConfidenceBound(r3, h.minConfidence);
    Prediction(h.period, Grown(currentPrice, h.growth, r1), r2 * h.maxChange,
               Round(r3 * 15.0 + h.minConfidence as real))
  }

  // ---------------------------------------------------------------------
  // Company names
  // ---------------------------------------------------------------------

  const COMPANIES: map<string, string> := map[
    "AAPL" := "Apple Inc.",
    "GOOGL" := "Alphabet Inc.",
    "MSFT" := "Microsoft Corporation",
    "AMZN" := "Amazon.com Inc.",
    "FB" := "Meta Platforms Inc.",
    "TSLA" := "Tesla Inc."
  ]

  /** `companies[symbol] || `${symbol} Corp``: the listed name of a known
      symbol (every listed name is non-empty, so `||` never falls through for
      one), and the symbol followed by " Corp" for any other. */
  function GetCompanyName(symbol: string): (name: string)
    ensures symbol in COMPANIES ==> name == COMPANIES[symbol]
    ensures symbol !in COMPANIES ==> name == symbol + " Corp"
  {
    if symbol in COMPANIES && COMPANIES[symbol] != "" then COMPANIES[symbol] else symbol + " Corp"
  }

  lemma CompanyNames()
    ensures COMPANIES.Keys == {"AAPL", "GOOGL", "MSFT", "AMZN", "FB", "TSLA"}
    ensures GetCompanyName("AAPL") == "Apple Inc." && GetCompanyName("TSLA") == "Tesla Inc."
    ensures GetCompanyName("IBM") == "IBM Corp"
  {
  }

  // ---------------------------------------------------------------------
  // Mock stock data (`getMockStockData`)
  // ---------------------------------------------------------------------

  /** The object `getMockStockData` returns; dates are day offsets from
      today. */
  datatype StockData = StockData(
    symbol: string,
    companyName: string,
    currentPrice: real,
    historicalDates: seq<int>,
    historicalPrices: seq<real>,
    futureDates: seq<int>,
    predictedPrices: seq<real>,
    predictions: seq<Prediction>)

  /** Draws consumed: 31 historical prices, 30 predicted prices, then price,
      change and confidence for each of the three horizons. */
  const HISTORY_DRAWS: int := 31
  const FUTURE_DRAWS: int := 30
  const STOCK_DRAWS: int := HISTORY_DRAWS + FUTURE_DRAWS + 3 * 3

  lemma HorizonsPositive()
    ensures |HORIZONS| == 3
    ensures forall j | 0 <= j < 3 :: HORIZONS[j].growth > 0.0 && HORIZONS[j].maxChange > 0.0
  {
  }

  /** The data `getMockStockData(symbol)` builds from draws rs. */
  function MockStockData(symbol: string, rs: seq<real>): (d: StockData)
    requires |rs| == STOCK_DRAWS && AreDraws(rs)
    ensures d.symbol == symbol && d.companyName == GetCompanyName(symbol)
    ensures |d.historicalDates| == 31 && |d.historicalPrices| == 31
    ensures |d.futureDates| == 30 && |d.predictedPrices| == 30
    ensures forall k | 0 <= k < 31 :: d.historicalDates[k] == k - 30
    ensures forall k | 0 <= k < 30 :: d.futureDates[k] == k + 1
    ensures forall k | 0 <= k < 31 :: 150.0 <= d.historicalPrices[k] < 200.0
    ensures forall k | 0 <= k < 30 :: 150.0 <= d.predictedPrices[k] < 200.0
    ensures d.currentPrice == d.historicalPrices[30]
    ensures |d.predictions| == 3
    ensures forall j | 0 <= j < 3 ::
      var p := d.predictions[j];
      var h := HORIZONS[j];
      p.period == h.period
      && d.currentPrice <= p.price < d.currentPrice * (1.0 + h.growth)
      && 0.0 <= p.change < h.maxChange
      && h.minConfidence <= p.confidence <= h.minConfidence + 15
  {
    HorizonsPositive();
    var hp := seq(31, k requires 0 <= k < 31 => MockPrice(rs[k]));
    var pp := seq(30, k requires 0 <= k < 30 => MockPrice(rs[31 + k]));
    var cp := hp[30];
    StockData(symbol, GetCompanyName(symbol), cp,
      seq(31, k => k - 30), hp, seq(30, k => k + 1), pp,
      seq(3, j requires 0 <= j < 3 => Predict(cp, HORIZONS[j], rs[61 + 3 * j], rs[62 + 3 * j], rs[63 + 3 * j])))
  }

  /** The prediction figures by horizon: 24h, 7d and 30d in that order, with
      their price, change and confidence ranges. */
  lemma MockPredictionRanges(symbol: string, rs: seq<real>)
    requires |rs| == STOCK_DRAWS && AreDraws(rs)
    ensures var d := MockStockData(symbol, rs);
      var cp := d.currentPrice;
      var ps := d.predictions;
      150.0 <= cp < 200.0
      && ps[0].period == "24h" && ps[1].period == "7d" && ps[2].period == "30d"
      && cp <= ps[0].price < cp * 1.05 && cp <= ps[1].price < cp * 1.1 && cp <= ps[2].price < cp * 1.2
      && 0.0 <= ps[0].change < 5.0 && 0.0 <= ps[1].change < 10.0 && 0.0 <= ps[2].change < 20.0
      && 80 <= ps[0].confidence <= 95 && 75 <= ps[1].confidence <= 90 && 70 <= ps[2].confidence <= 85
  {
    var d := MockStockData(symbol, rs);
    assert d.predictions[0].period == HORIZONS[0].period;
    assert d.predictions[1].period == HORIZONS[1].period;
    assert d.predictions[2].period == HORIZONS[2].period;
  }

  /** `MockStockData` from price lists built draw by draw. */
  lemma MockStockDataFrom(symbol: string, rs: seq<real>, hp: seq<real>, pp: seq<real>)
    requires |rs| == STOCK_DRAWS && AreDraws(rs)
    requires |hp| == 31 && forall k | 0 <= k < 31 :: hp[k] == MockPrice(rs[k])
    requires |pp| == 30 && forall k | 0 <= k < 30 :: pp[k] == MockPrice(rs[31 + k])
    ensures HORIZONS[0].growth > 0.0 && HORIZONS[1].growth > 0.0 && HORIZONS[2].growth > 0.0
    ensures HORIZONS[0].maxChange > 0.0 && HORIZONS[1].maxChange > 0.0 && HORIZONS[2].maxChange > 0.0
    ensures MockStockData(symbol, rs) == StockData(symbol, GetCompanyName(symbol), hp[30],
      seq(31, k => k - 30), hp, seq(30, k => k + 1), pp,
      [Predict(hp[30], HORIZONS[0], rs[61], rs[62], rs[63]),
       Predict(hp[30], HORIZONS[1], rs[64], rs[65], rs[66]),
       Predict(hp[30], HORIZONS[2], rs[67], rs[68], rs[69])])
  {
    HorizonsPositive();
    var d := MockStockData(symbol, rs);
    assert d.historicalPrices == hp;
    assert d.predictedPrices == pp;
  }

  /** The two counting loops of `getMockStockData`, then the returned object. */
  method GetMockStockData(symbol: string, rs: seq<real>) returns (d: StockData)
    requires |rs| == STOCK_DRAWS && AreDraws(rs)
    ensures d == MockStockData(symbol, rs)
  {
    var dates: seq<int> := [];
    var historicalPrices: seq<real> := [];
    var futureDates: seq<int> := [];
    var predictedPrices: seq<real> := [];

    var i := 30;
    while i >= 0
      invariant -1 <= i <= 30
      invariant |dates| == 30 - i && |historicalPrices| == 30 - i
      invariant forall k | 0 <= k < |dates| :: dates[k] == k - 30 && historicalPrices[k] == MockPrice(rs[k])
    {
      dates := dates + [-i];
      historicalPrices := historicalPrices + [MockPrice(rs[30 - i])];
      i := i - 1;
    }

    i := 1;
    while i <= 30
      invariant 1 <= i <= 31
      invariant |futureDates| == i - 1 && |predictedPrices| == i - 1
      invariant forall k | 0 <= k < |futureDates| :: futureDates[k] == k + 1 && predictedPrices[k] == MockPrice(rs[31 + k])
    {
      futureDates := futureDates + [i];
      predictedPrices := predictedPrices + [MockPrice(rs[30 + i])];
      i := i + 1;
    }

    assert dates == seq(31, k => k - 30);
    assert futureDates == seq(30, k => k + 1);
    MockStockDataFrom(symbol, rs, historicalPrices, predictedPrices);
    var currentPrice := historicalPrices[|historicalPrices| - 1];
    HorizonsPositive();
    var predictions := [
      Predict(currentPrice, HORIZONS[0], rs[61], rs[62], rs[63]),
      Predict(currentPrice, HORIZONS[1], rs[64], rs[65], rs[66]),
      Predict(currentPrice, HORIZONS[2], rs[67], rs[68], rs[69])
    ];
    d := StockData(symbol, GetCompanyName(symbol), currentPrice,
                   dates, historicalPrices, futureDates, predictedPrices, predictions);
  }

  // ---------------------------------------------------------------------
  // Chart payload (`updateChart`) and display (`updatePredictionDisplay`)
  // ---------------------------------------------------------------------

  /** The data arrays of the prediction chart: labels, the historical line
      and the dashed predicted line. */
  datatype PredictionChart = PredictionChart(
    labels: seq<int>, historicalLine: seq<real>, predictedLine: seq<Option<real>>)

  const EMPTY_PREDICTION_CHART: PredictionChart := PredictionChart([], [], [])

  /** `Array(n).fill(null)` */
  function Nulls(n: nat): (s: seq<Option<real>>)
    ensures |s| == n
  {
    seq(n, _ => None)
  }

  function Lift(xs: seq<real>): (s: seq<Option<real>>)
    ensures |s| == |xs|
  {
    seq(|xs|, k requires 0 <= k < |xs| => Some(xs[k]))
  }

  /** What `updateChart(data)` assigns: the labels are the historical dates
      followed by the future ones, the historical line is the historical
      prices as they are (not padded), and the predicted line holds one
      `null` per historical price followed by the predicted prices. */
  function PredictionPayload(d: StockData): (c: PredictionChart)
    ensures c.labels == d.historicalDates + d.futureDates
    ensures |c.labels| == |d.historicalDates| + |d.futureDates|
    ensures c.historicalLine == d.historicalPrices
    ensures |c.predictedLine| == |d.historicalPrices| + |d.predictedPrices|
    ensures forall k | 0 <= k < |d.historicalPrices| :: c.predictedLine[k] == None
    ensures forall k | 0 <= k < |d.predictedPrices| ::
      c.predictedLine[|d.historicalPrices| + k] == Some(d.predictedPrices[k])
  {
    PredictionChart(d.historicalDates + d.futureDates, d.historicalPrices,
                    Nulls(|d.historicalPrices|) + Lift(d.predictedPrices))
  }

  /** On mock data the chart has 61 labels -30..30, one per day; the predicted
      line is as long as the labels, with 31 leading `null`s; the historical
      line covers the first 31 labels only; and every label gets its value
      from exactly one of the two lines. */
  lemma MockPredictionChart(symbol: string, rs: seq<real>)
    requires |rs| == STOCK_DRAWS && AreDraws(rs)
    ensures var c := PredictionPayload(MockStockData(symbol, rs));
      |c.labels| == 61 && |c.predictedLine| == 61 && |c.historicalLine| == 31
      && (forall k | 0 <= k < 61 :: c.labels[k] == k - 30)
      && (forall k | 0 <= k < 31 :: c.predictedLine[k] == None)
      && (forall k | 31 <= k < 61 :: c.predictedLine[k].Some? && 150.0 <= c.predictedLine[k].value < 200.0)
      && (forall k | 0 <= k < 61 :: (k < |c.historicalLine|) != c.predictedLine[k].Some?)
  {
    var d := MockStockData(symbol, rs);
    var c := PredictionPayload(d);
    forall k | 31 <= k < 61
      ensures c.labels[k] == k - 30
      ensures c.predictedLine[k] == Some(d.predictedPrices[k - 31])
    {
      assert c.predictedLine[31 + (k - 31)] == Some(d.predictedPrices[k - 31]);
    }
  }

  /** A prediction card as `updatePredictionDisplay` fills it in, with the
      `up`/`down` class its change gets. */
  datatype Card = Card(price: real, change: real, confidence: int, style: Direction)

  datatype PredictionDisplay = PredictionDisplay(headline: string, currentPrice: real, cards: seq<Card>)

  /** `updatePredictionDisplay(data)`: the heading `symbol - company` and one
      card per prediction, in order. */
  function DisplayFor(d: StockData): (v: PredictionDisplay)
    ensures v.headline == d.symbol + " - " + d.companyName && v.currentPrice == d.currentPrice
    ensures |v.cards| == |d.predictions|
    ensures forall k | 0 <= k < |v.cards| ::
      v.cards[k].price == d.predictions[k].price && v.cards[k].confidence == d.predictions[k].confidence
      && (v.cards[k].style == Up <==> d.predictions[k].change >= 0.0)
  {
    PredictionDisplay(d.symbol + " - " + d.companyName, d.currentPrice,
      seq(|d.predictions|, k requires 0 <= k < |d.predictions| =>
        var p := d.predictions[k];
        Card(p.price, p.change, p.confidence, DirectionOf(p.change))))
  }

  /** Mock changes are never negative, so every card of mock data is styled
      `up`. */
  lemma MockCardsUp(symbol: string, rs: seq<real>)
    requires |rs| == STOCK_DRAWS && AreDraws(rs)
    ensures var v := DisplayFor(MockStockData(symbol, rs));
      |v.cards| == 3 && forall k | 0 <= k < 3 :: v.cards[k].style == Up
  {
  }

  // ---------------------------------------------------------------------
  // Symbol search and the predictor object
  // ---------------------------------------------------------------------

  /** `searchStock`'s rule: the upper-cased input, or nothing when it is
      empty. */
  function SearchSymbol(input: string): (s: Option<string>)
    ensures s.None? <==> input == ""
    ensures s.Some? ==> s.value == ToUpper(input) && |s.value| == |input|
  {
    var symbol := ToUpper(input);
    if symbol == "" then None else Some(symbol)
  }

  /** The predictor. `chart` is the data of `chartInstance` (absent until
      `setupChart`) and `display` what the prediction card area shows. */
  class StockPredictor {
    var currentSymbol: Option<string>
    var chart: Option<PredictionChart>
    var display: Option<PredictionDisplay>

    constructor ()
      ensures currentSymbol == None && chart == None && display == None
    {
      currentSymbol := None;
      chart := None;
      display := None;
    }

    /** `setupChart`: the chart exists, with empty data. */
    method SetupChart()
      modifies this
      ensures chart == Some(EMPTY_PREDICTION_CHART)
      ensures currentSymbol == old(currentSymbol) && display == old(display)
    {
      chart := Some(EMPTY_PREDICTION_CHART);
    }

    /** `updateChart(data)`; the source needs the chart to exist. */
    method UpdateChart(d: StockData)
      requires chart.Some?
      modifies this
      ensures chart == Some(PredictionPayload(d))
      ensures currentSymbol == old(currentSymbol) && display == old(display)
    {
      var dates := d.historicalDates + d.futureDates;
      var predicted := Nulls(|d.historicalPrices|) + Lift(d.predictedPrices);
      chart := Some(PredictionChart(dates, d.historicalPrices, predicted));
    }

    /** `loadStock(symbol)`: mock data, then the current symbol, the display
        and the chart. */
    method LoadStock(symbol: string, rs: seq<real>)
      requires chart.Some?
      requires |rs| == STOCK_DRAWS && AreDraws(rs)
      modifies this
      ensures currentSymbol == Some(symbol)
      ensures display == Some(DisplayFor(MockStockData(symbol, rs)))
      ensures chart == Some(PredictionPayload(MockStockData(symbol, rs)))
    {
      var data := GetMockStockData(symbol, rs);
      currentSymbol := Some(symbol);
      display := Some(DisplayFor(data));
      UpdateChart(data);
    }

    /** `searchStock` with the search box holding `input`: loads the
        upper-cased symbol, and ignores an empty box. */
    method SearchStock(input: string, rs: seq<real>)
      requires chart.Some?
      requires |rs| == STOCK_DRAWS && AreDraws(rs)
      modifies this
      ensures input == "" ==> currentSymbol == old(currentSymbol) && chart == old(chart) && display == old(display)
      ensures input != "" ==>
        currentSymbol == Some(ToUpper(input))
        && chart == Some(PredictionPayload(MockStockData(ToUpper(input), rs)))
        && display == Some(DisplayFor(MockStockData(ToUpper(input), rs)))
    {
      var symbol := SearchSymbol(input);
      if symbol.Some? {
        LoadStock(symbol.value, rs);
      }
    }

    /** `init`: sets up the chart and loads the default stock, AAPL. */
    method Init(rs: seq<real>)
      requires |rs| == STOCK_DRAWS && AreDraws(rs)
      modifies this
      ensures currentSymbol == Some("AAPL")
      ensures chart == Some(PredictionPayload(MockStockData("AAPL", rs)))
      ensures display == Some(DisplayFor(MockStockData("AAPL", rs)))
      ensures display.value.headline == "AAPL - Apple Inc."
    {
      SetupChart();
      LoadStock("AAPL", rs);
    }
  }
}
