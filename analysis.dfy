/** The market-analysis panel (`MarketAnalysis` in js/analysis.js): the
    simple moving average, the mock 31-day price series and the data it puts
    into the technical chart, the mock fundamental and sentiment figures, and
    the tool switcher that marks buttons and panels active and dispatches to
    one of the three analyses. */
module Analysis {
  import opened Basics
  import opened JsText

  // ---------------------------------------------------------------------
  // Simple moving average (`calculateMA`)
  // ---------------------------------------------------------------------

  /** `xs.reduce((a, b) => a + b, 0)`: the left-to-right sum. */
  function Sum(xs: seq<real>): (s: real)
    ensures xs == [] ==> s == 0.0
    ensures |xs| == 1 ==> s == xs[0]
    decreases |xs|
  {
    if xs == [] then 0.0 else Sum(xs[..|xs| - 1]) + xs[|xs| - 1]
  }

  lemma {:induction false} SumAppend(a: seq<real>, b: seq<real>)
    ensures Sum(a + b) == Sum(a) + Sum(b)
    decreases |b|
  {
    if b == [] {
      assert a + b == a;
    } else {
      var b' := b[..|b| - 1];
      assert (a + b)[..|a + b| - 1] == a + b';
      SumAppend(a, b');
    }
  }

  /** A sum of n values from [lo, hi) lies in [n*lo, n*hi). */
  lemma {:induction false} SumBounds(xs: seq<real>, lo: real, hi: real)
    requires forall k | 0 <= k < |xs| :: lo <= xs[k] < hi
    ensures |xs| as real * lo <= Sum(xs)
    ensures xs != [] ==> Sum(xs) < |xs| as real * hi
    decreases |xs|
  {
    if xs != [] {
      var init := xs[..|xs| - 1];
      SumBounds(init, lo, hi);
      assert |xs| as real * lo == |init| as real * lo + lo;
      assert |xs| as real * hi == |init| as real * hi + hi;
    }
  }

  /** `calculateMA(prices, period)`: aligned index for index with `prices`;
      `null` until a full window is available, then the mean of the last
      `period` prices. */
  function MovingAverage(prices: seq<real>, period: int): (ma: seq<Option<real>>)
    requires period >= 1
    ensures |ma| == |prices|
  {
    seq(|prices|, i requires 0 <= i < |prices| =>
      if i < period - 1 then None else Some(Sum(prices[i - period + 1..i + 1]) / period as real))
  }

  /** The loop of `calculateMA`, pushing one entry per price. */
  method CalculateMA(prices: seq<real>, period: int) returns (ma: seq<Option<real>>)
    requires period >= 1
    ensures ma == MovingAverage(prices, period)
  {
    ma := [];
    var i := 0;
    while i < |prices|
      invariant 0 <= i <= |prices|
      invariant |ma| == i
      invariant forall k | 0 <= k < i :: ma[k] == MovingAverage(prices, period)[k]
    {
      if i < period - 1 {
        ma := ma + [None];
      } else {
        var sum := Sum(prices[i - period + 1..i + 1]);
        ma := ma + [Some(sum / period as real)];
      }
      i := i + 1;
    }
  }

  /** Each defined entry averages exactly `period` consecutive prices ending
      at its own index. */
  lemma MovingAverageWindow(prices: seq<real>, period: int, i: int)
    requires period >= 1 && period - 1 <= i < |prices|
    ensures var w := prices[i - period + 1..i + 1];
      |w| == period && w[period - 1] == prices[i]
      && MovingAverage(prices, period)[i] == Some(Sum(w) / period as real)
  {
  }

  /** The leading `period - 1` entries are `null` and every later one is a
      number; a window longer than the series leaves everything `null`, and
      an empty series gives an empty result. */
  lemma MovingAverageAbsence(prices: seq<real>, period: int)
    requires period >= 1
    ensures forall i | 0 <= i < |prices| :: MovingAverage(prices, period)[i].None? <==> i < period - 1
    ensures period > |prices| ==> forall i | 0 <= i < |prices| :: MovingAverage(prices, period)[i] == None
    ensures prices == [] ==> MovingAverage(prices, period) == []
  {
  }

  /** Sliding the window by one adds the entering price and drops the leaving
      one, each weighted by 1/period: the running-sum form of the average. */
  lemma MovingAverageSlide(prices: seq<real>, period: int, i: int)
    requires period >= 1 && period <= i < |prices|
    ensures MovingAverage(prices, period)[i].Some? && MovingAverage(prices, period)[i - 1].Some?
    ensures MovingAverage(prices, period)[i].value
         == MovingAverage(prices, period)[i - 1].value + (prices[i] - prices[i - period]) / period as real
  {
    var mid := prices[i - period + 1..i];
    assert prices[i - period + 1..i + 1] == mid + [prices[i]];
    assert prices[i - period..i] == [prices[i - period]] + mid;
    SumAppend(mid, [prices[i]]);
    SumAppend([prices[i - period]], mid);
    var p := period as real;
    var now := Sum(prices[i - period + 1..i + 1]);
    var before := Sum(prices[i - period..i]);
    assert now == before + (prices[i] - prices[i - period]);
    DivideSum(before, prices[i] - prices[i - period], p);
    assert MovingAverage(prices, period)[i].value == now / p;
    assert MovingAverage(prices, period)[i - 1].value == before / p;
  }

  lemma DivideSum(a: real, b: real, p: real)
    requires p > 0.0
    ensures (a + b) / p == a / p + b / p
  {
  }

  /** The mean of prices in [lo, hi) is again in [lo, hi). */
  lemma MovingAverageBounds(prices: seq<real>, period: int, lo: real, hi: real, i: int)
    requires period >= 1 && 0 <= i < |prices|
    requires forall k | 0 <= k < |prices| :: lo <= prices[k] < hi
    ensures MovingAverage(prices, period)[i].Some? ==>
      lo <= MovingAverage(prices, period)[i].value < hi
  {
    if i >= period - 1 {
      var w := prices[i - period + 1..i + 1];
      SumBounds(w, lo, hi);
      MeanBounds(Sum(w), period as real, lo, hi);
    }
  }

  lemma MeanBounds(sum: real, p: real, lo: real, hi: real)
    requires p > 0.0 && p * lo <= sum < p * hi
    ensures lo <= sum / p < hi
  {
    var m := sum / p;
    assert m * p == sum;
  }

  /** The worked example: `calculateMA([150, 160, 170, 180], 2)`. */
  lemma MovingAverageExample()
    ensures MovingAverage([150.0, 160.0, 170.0, 180.0], 2) == [None, Some(155.0), Some(165.0), Some(175.0)]
  {
    var s := [150.0, 160.0, 170.0, 180.0];
    assert s[0..2] == [150.0, 160.0] && s[1..3] == [160.0, 170.0] && s[2..4] == [170.0, 180.0];
    assert [150.0, 160.0][..1] == [150.0] && [150.0][..0] == [];
    assert [160.0, 170.0][..1] == [160.0] && [160.0][..0] == [];
    assert [170.0, 180.0][..1] == [170.0] && [170.0][..0] == [];
  }

  // ---------------------------------------------------------------------
  // Mock market series (`generateMockMarketData`) and the technical chart
  // ---------------------------------------------------------------------

  /** Dates are day offsets from today (0 is today, -1 yesterday). */
  datatype MarketSeries = MarketSeries(dates: seq<int>, prices: seq<real>)

  /** The number of draws one mock series consumes: days -30 to 0. */
  const SERIES_DRAWS: int := 31

  /** The series `generateMockMarketData` produces from draws rs: 31
      consecutive days ending today, each with a price in [150, 200). */
  function MockMarketSeries(rs: seq<real>): (s: MarketSeries)
    requires |rs| == SERIES_DRAWS && AreDraws(rs)
    ensures |s.dates| == 31 && |s.prices| == 31
    ensures s.dates[0] == -30 && s.dates[30] == 0
    ensures forall k | 0 <= k < 30 :: s.dates[k + 1] == s.dates[k] + 1
    ensures forall k | 0 <= k < 31 :: 150.0 <= s.prices[k] < 200.0
  {
    MarketSeries(seq(31, k => k - 30), seq(31, k requires 0 <= k < 31 => MockPrice(rs[k])))
  }

  /** The counting-down loop of `generateMockMarketData`: i runs from 30 to
      0 and pushes the date i days ago and one mock price. */
  method GenerateMockMarketData(rs: seq<real>) returns (s: MarketSeries)
    requires |rs| == SERIES_DRAWS && AreDraws(rs)
    ensures s == MockMarketSeries(rs)
  {
    var dates: seq<int> := [];
    var prices: seq<real> := [];
    var i := 30;
    while i >= 0
      invariant -1 <= i <= 30
      invariant |dates| == 30 - i && |prices| == 30 - i
      invariant forall k | 0 <= k < |dates| :: dates[k] == k - 30 && prices[k] == MockPrice(rs[k])
    {
      dates := dates + [-i];
      prices := prices + [MockPrice(rs[30 - i])];
      i := i - 1;
    }
    s := MarketSeries(dates, prices);
  }

  /** The data arrays of the technical chart: labels, the price line and the
      20- and 50-day averages. */
  datatype TechnicalChart = TechnicalChart(
    labels: seq<int>, price: seq<real>, ma20: seq<Option<real>>, ma50: seq<Option<real>>)

  const EMPTY_TECHNICAL_CHART: TechnicalChart := TechnicalChart([], [], [], [])

  /** What `updateCharts(data)` assigns to the chart's data fields. */
  function TechnicalPayload(s: MarketSeries): (c: TechnicalChart)
    ensures c.labels == s.dates && c.price == s.prices
    ensures |c.ma20| == |s.prices| && |c.ma50| == |s.prices|
    ensures forall k | 0 <= k < |s.prices| ::
      (c.ma20[k].Some? <==> k >= 19) && (c.ma50[k].Some? <==> k >= 49)
  {
    TechnicalChart(s.dates, s.prices, MovingAverage(s.prices, 20), MovingAverage(s.prices, 50))
  }

  /** On a mock series the 20-day average has 19 leading `null`s and then 12
      values, each inside the price band; the 50-day average is all `null`. */
  lemma MockTechnicalChart(rs: seq<real>)
    requires |rs| == SERIES_DRAWS && AreDraws(rs)
    ensures var s := MockMarketSeries(rs);
      var c := TechnicalPayload(s);
      c.labels == s.dates && c.price == s.prices
      && |c.ma20| == 31 && |c.ma50| == 31
      && (forall k | 0 <= k < 19 :: c.ma20[k] == None)
      && (forall k | 19 <= k < 31 :: c.ma20[k].Some? && 150.0 <= c.ma20[k].value < 200.0)
      && (forall k | 0 <= k < 31 :: c.ma50[k] == None)
  {
    var s := MockMarketSeries(rs);
    forall k | 19 <= k < 31
      ensures MovingAverage(s.prices, 20)[k].Some? && 150.0 <= MovingAverage(s.prices, 20)[k].value < 200.0
    {
      MovingAverageBounds(s.prices, 20, 150.0, 200.0, k);
    }
  }

  // ---------------------------------------------------------------------
  // Mock fundamental, sentiment and indicator figures
  // ---------------------------------------------------------------------

  /** The six ratios of `generateMockFundamentalMetrics`, before `toFixed(2)`. */
  datatype FundamentalMetrics = FundamentalMetrics(
    peRatio: real, pbRatio: real, pegRatio: real, debtToEquity: real, currentRatio: real, quickRatio: real)

  function MockFundamentalMetrics(rs: seq<real>): (m: FundamentalMetrics)
    requires |rs| == 6 && AreDraws(rs)
    ensures 15.0 <= m.peRatio < 35.0 && 2.0 <= m.pbRatio < 7.0 && 1.0 <= m.pegRatio < 2.0
    ensures 30.0 <= m.debtToEquity < 80.0 && 1.5 <= m.currentRatio < 2.5 && 1.0 <= m.quickRatio < 1.5
  {
    FundamentalMetrics(rs[0] * 20.0 + 15.0, rs[1] * 5.0 + 2.0, rs[2] * 1.0 + 1.0,
                       rs[3] * 50.0 + 30.0, rs[4] * 1.0 + 1.5, rs[5] * 0.5 + 1.0)
  }

  /** The scores of `generateMockSentimentData`; the analyst rating before
      `toFixed(1)`. */
  datatype SentimentData = SentimentData(
    overallSentiment: real, newsScore: real, socialScore: real, analystRating: real)

  function MockSentimentData(rs: seq<real>): (d: SentimentData)
    requires |rs| == 4 && AreDraws(rs)
    ensures 0.0 <= d.overallSentiment < 100.0 && 0.0 <= d.newsScore < 100.0
    ensures 0.0 <= d.socialScore < 100.0 && 0.0 <= d.analystRating < 5.0
  {
    SentimentData(rs[0] * 100.0, rs[1] * 100.0, rs[2] * 100.0, rs[3] * 5.0)
  }

  /** The class the sentiment score gets: `positive` or `negative`. */
  datatype Mood = Positive | Negative

  /** `overallSentiment >= 50 ? 'positive' : 'negative'` */
  function SentimentMood(score: real): (m: Mood)
    ensures m == Positive <==> score >= 50.0
  {
    if score >= 50.0 then Positive else Negative
  }

  /** A mock sentiment is shown as positive exactly when its first draw is at
      least one half. */
  lemma MockSentimentMood(rs: seq<real>)
    requires |rs| == 4 && AreDraws(rs)
    ensures SentimentMood(MockSentimentData(rs).overallSentiment) == Positive <==> rs[0] >= 0.5
    ensures SentimentMood(MockSentimentData(rs).overallSentiment) == Negative <==> rs[0] < 0.5
  {
  }

  /** `generateMockIndicatorValue`, before `toFixed(2)`. */
  function MockIndicatorValue(r: real): (v: real)
    requires IsDraw(r)
    ensures 0.0 <= v < 100.0
  {
    r * 100.0
  }

  // ---------------------------------------------------------------------
  // Tool switching and dispatch
  // ---------------------------------------------------------------------

  datatype Tool = Technical | Fundamental | Sentiment

  function ToolId(t: Tool): string {
    match t
    case Technical => "technical"
    case Fundamental => "fundamental"
    case Sentiment => "sentiment"
  }

  /** The `switch` of `updateAnalysis`: a known name selects its tool, any
      other string selects nothing. */
  function Dispatch(name: string): (t: Option<Tool>)
    ensures t.Some? ==> ToolId(t.value) == name
    ensures t.None? ==> forall u: Tool :: ToolId(u) != name
  {
    if name == "technical" then Some(Technical)
    else if name == "fundamental" then Some(Fundamental)
    else if name == "sentiment" then Some(Sentiment)
    else None
  }

  lemma DispatchToolId(t: Tool)
    ensures Dispatch(ToolId(t)) == Some(t)
  {
  }

  /** A `.tool-btn` button (its text) or an `.analysis-panel` panel (its id),
      with whether it carries the `active` class. */
  datatype Toggle = Toggle(name: string, active: bool)

  /** The click handler's tool name: the first word of the lower-cased
      button text. */
  function ClickedTool(text: string): (tool: string)
    ensures tool <= ToLower(text) && ' ' !in tool
  {
    FirstWord(ToLower(text))
  }

  /** After `switchTool(tool)` a button is active exactly when its lower-cased
      text includes `tool`; its text is kept. */
  function SelectButtons(buttons: seq<Toggle>, tool: string): (bs: seq<Toggle>)
    ensures |bs| == |buttons|
  {
    seq(|buttons|, k requires 0 <= k < |buttons| =>
      Toggle(buttons[k].name, Includes(ToLower(buttons[k].name), tool)))
  }

  /** After `switchTool(tool)` a panel is active exactly when its id includes
      `tool` (the id is not lower-cased). */
  function SelectPanels(panels: seq<Toggle>, tool: string): (ps: seq<Toggle>)
    ensures |ps| == |panels|
  {
    seq(|panels|, k requires 0 <= k < |panels| => Toggle(panels[k].name, Includes(panels[k].name, tool)))
  }

  /** The button that was clicked is always among the active ones after the
      switch, whatever its text. */
  lemma ClickedButtonActive(buttons: seq<Toggle>, k: int)
    requires 0 <= k < |buttons|
    ensures SelectButtons(buttons, ClickedTool(buttons[k].name))[k].active
  {
  }

  /** Selection keeps every name and marks active exactly the items whose
      text has `tool` somewhere in it. */
  lemma SelectionIff(buttons: seq<Toggle>, panels: seq<Toggle>, tool: string)
    ensures forall k | 0 <= k < |buttons| ::
      SelectButtons(buttons, tool)[k].name == buttons[k].name
      && (SelectButtons(buttons, tool)[k].active <==> exists i :: OccursAt(ToLower(buttons[k].name), tool, i))
    ensures forall k | 0 <= k < |panels| ::
      SelectPanels(panels, tool)[k].name == panels[k].name
      && (SelectPanels(panels, tool)[k].active <==> exists i :: OccursAt(panels[k].name, tool, i))
  {
    forall k | 0 <= k < |buttons| {
      IncludesIff(ToLower(buttons[k].name), tool);
    }
    forall k | 0 <= k < |panels| {
      IncludesIff(panels[k].name, tool);
    }
  }

  /** What one `updateAnalysis` call produces. */
  datatype Analysis =
    | NoAnalysis
    | TechnicalUpdate(series: MarketSeries)
    | FundamentalUpdate(metrics: FundamentalMetrics)
    | SentimentUpdate(sentiment: SentimentData, mood: Mood)

  /** The draws one `updateAnalysis` call may consume at most. */
  const ANALYSIS_DRAWS: int := SERIES_DRAWS

  /** `updateAnalysis` for the current tool name, with draws rs. */
  function AnalysisFor(tool: string, rs: seq<real>): (a: Analysis)
    requires |rs| == ANALYSIS_DRAWS && AreDraws(rs)
    ensures a.NoAnalysis? <==> Dispatch(tool).None?
    ensures a.TechnicalUpdate? <==> tool == "technical"
    ensures a.FundamentalUpdate? <==> tool == "fundamental"
    ensures a.SentimentUpdate? <==> tool == "sentiment"
    ensures a.SentimentUpdate? ==> (a.mood == Positive <==> a.sentiment.overallSentiment >= 50.0)
  {
    DrawsPrefix(rs, 6);
    DrawsPrefix(rs, 4);
    match Dispatch(tool)
    case None => NoAnalysis
    case Some(Technical) => TechnicalUpdate(MockMarketSeries(rs))
    case Some(Fundamental) => FundamentalUpdate(MockFundamentalMetrics(rs[..6]))
    case Some(Sentiment) =>
      var s := MockSentimentData(rs[..4]);
      SentimentUpdate(s, SentimentMood(s.overallSentiment))
  }

  /** The analysis panel. `buttons` and `panels` stand for the page's
      `.tool-btn` and `.analysis-panel` elements; `chart` is the data of
      `charts.technical`, absent until `setupCharts` runs. */
  class MarketAnalysis {
    var currentTool: string
    var buttons: seq<Toggle>
    var panels: seq<Toggle>
    var chart: Option<TechnicalChart>

    constructor (buttons: seq<Toggle>, panels: seq<Toggle>)
      ensures currentTool == "technical" && chart == None
      ensures this.buttons == buttons && this.panels == panels
    {
      currentTool := "technical";
      this.buttons := buttons;
      this.panels := panels;
      chart := None;
    }

    /** `setupCharts`: the technical chart exists, with empty data. */
    method SetupCharts()
      modifies this
      ensures chart == Some(EMPTY_TECHNICAL_CHART)
      ensures currentTool == old(currentTool) && buttons == old(buttons) && panels == old(panels)
    {
      chart := Some(EMPTY_TECHNICAL_CHART);
    }

    /** `updateCharts(data)`: overwrites the chart's data when the chart
        exists and does nothing otherwise. */
    method UpdateCharts(data: MarketSeries)
      modifies this
      ensures chart == if old(chart).Some? then Some(TechnicalPayload(data)) else old(chart)
      ensures currentTool == old(currentTool) && buttons == old(buttons) && panels == old(panels)
    {
      if chart.Some? {
        var ma20 := CalculateMA(data.prices, 20);
        var ma50 := CalculateMA(data.prices, 50);
        chart := Some(TechnicalChart(data.dates, data.prices, ma20, ma50));
      }
    }

    /** `init`: creates the chart, then `loadInitialData` fills it with a
        fresh mock series. */
    method Init(rs: seq<real>)
      requires |rs| == SERIES_DRAWS && AreDraws(rs)
      modifies this
      ensures chart == Some(TechnicalPayload(MockMarketSeries(rs)))
      ensures currentTool == old(currentTool) && buttons == old(buttons) && panels == old(panels)
    {
      SetupCharts();
      var data := GenerateMockMarketData(rs);
      UpdateCharts(data);
    }

    /** `updateAnalysis`: regenerates the part of the panel the current tool
        names; only the technical branch changes the chart. */
    method UpdateAnalysis(rs: seq<real>) returns (a: Analysis)
      requires |rs| == ANALYSIS_DRAWS && AreDraws(rs)
      modifies this
      ensures a == AnalysisFor(old(currentTool), rs)
      ensures chart == if a.TechnicalUpdate? && old(chart).Some? then Some(TechnicalPayload(a.series)) else old(chart)
      ensures currentTool == old(currentTool) && buttons == old(buttons) && panels == old(panels)
    {
      DrawsPrefix(rs, 6);
      DrawsPrefix(rs, 4);
      match Dispatch(currentTool)
      case None =>
        a := NoAnalysis;
      case Some(Technical) =>
        var data := GenerateMockMarketData(rs);
        UpdateCharts(data);
        a := TechnicalUpdate(data);
      case Some(Fundamental) =>
        a := FundamentalUpdate(MockFundamentalMetrics(rs[..6]));
      case Some(Sentiment) =>
        var s := MockSentimentData(rs[..4]);
        a := SentimentUpdate(s, SentimentMood(s.overallSentiment));
    }

    /** `switchTool(tool)`: marks buttons and panels, records the tool and
        runs `updateAnalysis`. */
    method SwitchTool(tool: string, rs: seq<real>) returns (a: Analysis)
      requires |rs| == ANALYSIS_DRAWS && AreDraws(rs)
      modifies this
      ensures buttons == SelectButtons(old(buttons), tool)
      ensures panels == SelectPanels(old(panels), tool)
      ensures currentTool == tool
      ensures a == AnalysisFor(tool, rs)
      ensures chart == if a.TechnicalUpdate? && old(chart).Some? then Some(TechnicalPayload(a.series)) else old(chart)
    {
      ghost var bs, ps := buttons, panels;
      var k := 0;
      while k < |buttons|
        invariant 0 <= k <= |buttons| == |bs|
        invariant forall j | 0 <= j < k :: buttons[j] == SelectButtons(bs, tool)[j]
        invariant forall j | k <= j < |buttons| :: buttons[j] == bs[j]
        invariant panels == ps && chart == old(chart)
      {
        var button := buttons[k].(active := false);
        if Includes(ToLower(button.name), tool) {
          button := button.(active := true);
        }
        buttons := buttons[k := button];
        k := k + 1;
      }
      k := 0;
      while k < |panels|
        invariant 0 <= k <= |panels| == |ps|
        invariant forall j | 0 <= j < k :: panels[j] == SelectPanels(ps, tool)[j]
        invariant forall j | k <= j < |panels| :: panels[j] == ps[j]
        invariant buttons == SelectButtons(bs, tool) && chart == old(chart)
      {
        var panel := panels[k].(active := false);
        if Includes(panel.name, tool) {
          panel := panel.(active := true);
        }
        panels := panels[k := panel];
        k := k + 1;
      }
      currentTool := tool;
      a := UpdateAnalysis(rs);
    }

    /** The click listener `setupToolSwitcher` installs on button k. */
    method ClickToolButton(k: int, rs: seq<real>) returns (a: Analysis)
      requires 0 <= k < |buttons|
      requires |rs| == ANALYSIS_DRAWS && AreDraws(rs)
      modifies this
      ensures currentTool == ClickedTool(old(buttons)[k].name)
      ensures buttons == SelectButtons(old(buttons), currentTool) && buttons[k].active
      ensures panels == SelectPanels(old(panels), currentTool)
      ensures a == AnalysisFor(currentTool, rs)
      ensures chart == if a.TechnicalUpdate? && old(chart).Some? then Some(TechnicalPayload(a.series)) else old(chart)
    {
      var tool := ClickedTool(buttons[k].name);
      ClickedButtonActive(buttons, k);
      a := SwitchTool(tool, rs);
    }
  }
}
