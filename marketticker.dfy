/** The index ticker of the landing page (`MarketData` in js/main.js): a table
    from index symbol to base price that each tick moves by a random amount
    in [-5, 5) and reports, with an up/down direction, for every index whose
    page element exists. */
module MarketTicker {
  import opened Basics

  /** `(Math.random() - 0.5) * 10`: a perturbation in [-5, 5), upwards
      exactly when the draw is at least one half. */
  function Change(r: real): (c: real)
    requires IsDraw(r)
    ensures -5.0 <= c < 5.0
    ensures DirectionOf(c) == Up <==> r >= 0.5
  {
    (r - 0.5) * 10.0
  }

  /** One entry of `marketSymbols`: its key, the id of the page element that
      shows it, and its current base price. */
  datatype Market = Market(symbol: string, element: string, basePrice: real)

  /** What a tick writes into a page element: the new price and its class. */
  datatype Report = Report(symbol: string, price: real, direction: Direction)

  /** The seed table, in the order `for ... in` visits its keys. */
  const INITIAL_MARKETS: seq<Market> := [
    Market("sp500", "sp500", 4890.97),
    Market("nasdaq", "nasdaq", 15360.28),
    Market("dow", "dow", 37490.17)
  ]

  const UPDATE_INTERVAL_MS: int := 5000

  predicate DistinctSymbols(ms: seq<Market>) {
    forall i, j | 0 <= i < j < |ms| :: ms[i].symbol != ms[j].symbol
  }

  /** The table seen as a map from symbol to base price. */
  function PriceTable(ms: seq<Market>): map<string, real>
    requires DistinctSymbols(ms)
  {
    map i | 0 <= i < |ms| :: ms[i].symbol := ms[i].basePrice
  }

  /** The table after one tick: entry i moves by `Change(rs[i])` when its
      element is on the page and stays as it is otherwise. */
  function Stepped(ms: seq<Market>, present: set<string>, rs: seq<real>): (ms': seq<Market>)
    requires |rs| == |ms| && AreDraws(rs)
    ensures |ms'| == |ms|
  {
    seq(|ms|, i requires 0 <= i < |ms| =>
      if ms[i].element in present then ms[i].(basePrice := ms[i].basePrice + Change(rs[i])) else ms[i])
  }

  /** The reports of one tick, in table order: one per entry whose element is
      on the page (`ReportedAt` states what each one carries). */
  function Reported(ms: seq<Market>, present: set<string>, rs: seq<real>): (r: seq<Report>)
    requires |rs| == |ms| && AreDraws(rs)
    ensures |r| <= |ms|
    decreases |ms|
  {
    if ms == [] then []
    else
      var n := |ms| - 1;
      DrawsPrefix(rs, n);
      Reported(ms[..n], present, rs[..n])
      + (if ms[n].element in present
         then [Report(ms[n].symbol, ms[n].basePrice + Change(rs[n]), DirectionOf(Change(rs[n])))]
         else [])
  }

  /** The positions, in increasing order, of the entries whose element is on
      the page; each one is listed once. */
  function PresentIndices(ms: seq<Market>, present: set<string>): (idx: seq<int>)
    ensures forall j | 0 <= j < |idx| :: 0 <= idx[j] < |ms| && ms[idx[j]].element in present
    ensures forall j, k | 0 <= j < k < |idx| :: idx[j] < idx[k]
    decreases |ms|
  {
    if ms == [] then []
    else
      var n := |ms| - 1;
      PresentIndices(ms[..n], present) + (if ms[n].element in present then [n] else [])
  }

  /** No entry whose element is on the page is missed. */
  lemma {:induction false} PresentIndicesComplete(ms: seq<Market>, present: set<string>, i: int)
    requires 0 <= i < |ms| && ms[i].element in present
    ensures i in PresentIndices(ms, present)
    decreases |ms|
  {
    var n := |ms| - 1;
    if i < n {
      PresentIndicesComplete(ms[..n], present, i);
    }
  }

  /** A tick keeps every key and element, so the keys stay distinct. */
  lemma SteppedKeepsKeys(ms: seq<Market>, present: set<string>, rs: seq<real>)
    requires |rs| == |ms| && AreDraws(rs)
    ensures forall i | 0 <= i < |ms| ::
      Stepped(ms, present, rs)[i].symbol == ms[i].symbol && Stepped(ms, present, rs)[i].element == ms[i].element
    ensures DistinctSymbols(ms) ==> DistinctSymbols(Stepped(ms, present, rs))
  {
  }

  /** A tick moves a shown entry by less than 5 either way, in the direction
      of its draw, and leaves a hidden entry alone. */
  lemma SteppedPrice(ms: seq<Market>, present: set<string>, rs: seq<real>, i: int)
    requires |rs| == |ms| && AreDraws(rs) && 0 <= i < |ms|
    ensures ms[i].element in present ==>
      Stepped(ms, present, rs)[i].basePrice == ms[i].basePrice + Change(rs[i])
      && ms[i].basePrice - 5.0 <= Stepped(ms, present, rs)[i].basePrice < ms[i].basePrice + 5.0
      && (Stepped(ms, present, rs)[i].basePrice >= ms[i].basePrice <==> rs[i] >= 0.5)
    ensures ms[i].element !in present ==> Stepped(ms, present, rs)[i] == ms[i]
  {
  }

  /** Ticks compound: two ticks add both perturbations to the price, which is
      never reset to its seed. */
  lemma TwoTicksCompound(ms: seq<Market>, p1: set<string>, p2: set<string>, rs1: seq<real>, rs2: seq<real>, i: int)
    requires |rs1| == |ms| && AreDraws(rs1) && |rs2| == |ms| && AreDraws(rs2) && 0 <= i < |ms|
    requires ms[i].element in p1 && ms[i].element in p2
    ensures Stepped(Stepped(ms, p1, rs1), p2, rs2)[i].basePrice
         == ms[i].basePrice + Change(rs1[i]) + Change(rs2[i])
  {
  }

  lemma {:induction false} SteppedPrefix(ms: seq<Market>, present: set<string>, rs: seq<real>, n: nat)
    requires |rs| == |ms| && AreDraws(rs) && n <= |ms|
    ensures AreDraws(rs[..n])
    ensures Stepped(ms[..n], present, rs[..n]) == Stepped(ms, present, rs)[..n]
  {
    DrawsPrefix(rs, n);
  }

  /** A tick reports exactly as many entries as are shown. */
  lemma {:induction false} ReportedLength(ms: seq<Market>, present: set<string>, rs: seq<real>)
    requires |rs| == |ms| && AreDraws(rs)
    ensures |Reported(ms, present, rs)| == |PresentIndices(ms, present)|
    decreases |ms|
  {
    if ms != [] {
      var n := |ms| - 1;
      DrawsPrefix(rs, n);
      ReportedLength(ms[..n], present, rs[..n]);
    }
  }

  /** Report j is about the j-th shown entry. */
  lemma {:induction false} ReportedEntry(ms: seq<Market>, present: set<string>, rs: seq<real>, j: int)
    requires |rs| == |ms| && AreDraws(rs)
    requires 0 <= j < |PresentIndices(ms, present)|
    ensures |Reported(ms, present, rs)| == |PresentIndices(ms, present)|
    ensures var i := PresentIndices(ms, present)[j];
      Reported(ms, present, rs)[j]
        == Report(ms[i].symbol, ms[i].basePrice + Change(rs[i]), DirectionOf(Change(rs[i])))
    decreases |ms|
  {
    ReportedLength(ms, present, rs);
    var n := |ms| - 1;
    var pre, rpre := ms[..n], rs[..n];
    DrawsPrefix(rs, n);
    ReportedLength(pre, present, rpre);
    var idx := PresentIndices(pre, present);
    if j < |idx| {
      ReportedEntry(pre, present, rpre, j);
      assert 0 <= idx[j] < n && pre[idx[j]] == ms[idx[j]] && rpre[idx[j]] == rs[idx[j]];
    }
  }

  /** One report per shown entry, in table order, carrying the entry's new
      base price (the old one plus its perturbation, as `SteppedPrice` says
      the table records it) and the direction of that perturbation. */
  lemma ReportedAt(ms: seq<Market>, present: set<string>, rs: seq<real>)
    requires |rs| == |ms| && AreDraws(rs)
    ensures |Reported(ms, present, rs)| == |PresentIndices(ms, present)|
    ensures forall j | 0 <= j < |Reported(ms, present, rs)| ::
      var i := PresentIndices(ms, present)[j];
      Reported(ms, present, rs)[j]
        == Report(ms[i].symbol, ms[i].basePrice + Change(rs[i]), DirectionOf(Change(rs[i])))
  {
    ReportedLength(ms, present, rs);
    forall j | 0 <= j < |Reported(ms, present, rs)|
      ensures var i := PresentIndices(ms, present)[j];
        Reported(ms, present, rs)[j]
          == Report(ms[i].symbol, ms[i].basePrice + Change(rs[i]), DirectionOf(Change(rs[i])))
    {
      ReportedEntry(ms, present, rs, j);
    }
  }

  /** The seed table maps the three indices to their seed prices. */
  lemma InitialPrices()
    ensures DistinctSymbols(INITIAL_MARKETS)
    ensures PriceTable(INITIAL_MARKETS) == map["sp500" := 4890.97, "nasdaq" := 15360.28, "dow" := 37490.17]
  {
    var t := PriceTable(INITIAL_MARKETS);
    assert INITIAL_MARKETS[0].symbol == "sp500" && INITIAL_MARKETS[1].symbol == "nasdaq"
        && INITIAL_MARKETS[2].symbol == "dow";
    assert t.Keys == {"sp500", "nasdaq", "dow"};
  }

  /** The ticker: `marketSymbols` and `updateInterval`. */
  class MarketData {
    var markets: seq<Market>
    const updateInterval: int

    ghost predicate Valid()
      reads this
    {
      DistinctSymbols(markets)
    }

    /** The current base price of every index. */
    function Prices(): map<string, real>
      reads this
      requires Valid()
    {
      PriceTable(markets)
    }

    constructor ()
      ensures Valid()
      ensures markets == INITIAL_MARKETS && updateInterval == UPDATE_INTERVAL_MS
      ensures Prices() == map["sp500" := 4890.97, "nasdaq" := 15360.28, "dow" := 37490.17]
    {
      markets := INITIAL_MARKETS;
      updateInterval := UPDATE_INTERVAL_MS;
      InitialPrices();
    }

    /** `updatePrices`: `present` holds the ids of the elements on the page and
        `rs[i]` is the draw entry i gets when its element is there. */
    method UpdatePrices(present: set<string>, rs: seq<real>) returns (reports: seq<Report>)
      requires Valid() && |rs| == |markets| && AreDraws(rs)
      modifies this
      ensures Valid()
      ensures markets == Stepped(old(markets), present, rs)
      ensures reports == Reported(old(markets), present, rs)
    {
      ghost var ms := markets;
      reports := [];
      var i := 0;
      while i < |markets|
        invariant 0 <= i <= |markets| == |ms|
        invariant forall k | 0 <= k < i :: markets[k] == Stepped(ms, present, rs)[k]
        invariant forall k | i <= k < |markets| :: markets[k] == ms[k]
        invariant AreDraws(rs[..i])
        invariant reports == Reported(ms[..i], present, rs[..i])
      {
        DrawsPrefix(rs, i + 1);
        assert ms[..i + 1][..i] == ms[..i] && rs[..i + 1][..i] == rs[..i];
        var market := markets[i];
        if market.element in present {
          var change := Change(rs[i]);
          var newPrice := market.basePrice + change;
          reports := reports + [Report(market.symbol, newPrice, DirectionOf(change))];
          markets := markets[i := market.(basePrice := newPrice)];
        }
        i := i + 1;
      }
      assert ms[..i] == ms && rs[..i] == rs;
      assert markets == Stepped(ms, present, rs);
      SteppedKeepsKeys(ms, present, rs);
    }
  }
}
