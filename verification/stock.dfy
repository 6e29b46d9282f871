/** One holding of the portfolio: its valuation, its saved row, and a simulated price move. */
module Stocks {
  import opened Wrappers

  /** A stock in the portfolio. Prices are exact reals per share; the identifier and the
      share count are unbounded integers, and nothing requires them to be positive. */
  datatype Stock = Stock(stockNo: int, numShares: int, buyPrice: real, currentPrice: real)

  /** What the holding is worth at its current price: nothing without shares, and never
      negative for a real holding at a real price. */
  function CurrValue(s: Stock): (v: real)
    ensures s.numShares == 0 ==> v == 0.0
    ensures s.numShares >= 0 && s.currentPrice >= 0.0 ==> v >= 0.0
  {
    s.numShares as real * s.currentPrice
  }

  /** What the holding cost at its buy price: nothing without shares, and never negative
      for a real holding bought at a real price. */
  function Investment(s: Stock): (c: real)
    ensures s.numShares == 0 ==> c == 0.0
    ensures s.numShares >= 0 && s.buyPrice >= 0.0 ==> c >= 0.0
  {
    s.numShares as real * s.buyPrice
  }

  /** Signed gain of the holding: current value less what it cost; zero is break-even.
      It is the per-share price difference times the share count. */
  function ProfitLoss(s: Stock): (pl: real)
    ensures pl == s.numShares as real * (s.currentPrice - s.buyPrice)
  {
    CurrValue(s) - Investment(s)
  }

  /** The current value splits into cost plus profit/loss. */
  lemma ValueSplits(s: Stock)
    ensures CurrValue(s) == Investment(s) + ProfitLoss(s)
  {
  }

  /** For a holding of at least one share, it shows a gain (or breaks even) exactly when
      the current price is at least the buy price. */
  lemma ProfitLossSign(s: Stock)
    requires s.numShares > 0
    ensures ProfitLoss(s) >= 0.0 <==> s.currentPrice >= s.buyPrice
    ensures ProfitLoss(s) == 0.0 <==> s.currentPrice == s.buyPrice
  {
  }

  /** The saved fields of a holding, in the fixed column order
      stock number, share count, buy price, current price. */
  function ToRow(s: Stock): (row: seq<real>)
    ensures |row| == 4
    ensures row[0] == s.stockNo as real && row[1] == s.numShares as real
    ensures row[2] == s.buyPrice && row[3] == s.currentPrice
  {
    [s.stockNo as real, s.numShares as real, s.buyPrice, s.currentPrice]
  }

  /** True when the number has no fractional part, so the integer columns can take it. */
  predicate IsWhole(x: real)
  {
    x.Floor as real == x
  }

  /** Rebuilds a holding from a row in the saved column order; the first two columns are
      the integer identifier and share count, the next two the prices. Columns after the
      fourth are ignored, as the load reads only the four named ones. */
  function FromRow(row: seq<real>): (r: Option<Stock>)
    ensures r.Some? <==> |row| >= 4 && IsWhole(row[0]) && IsWhole(row[1])
    ensures r.Some? ==> r.value.stockNo as real == row[0] && r.value.numShares as real == row[1]
    ensures r.Some? ==> r.value.buyPrice == row[2] && r.value.currentPrice == row[3]
  {
    if |row| >= 4 && IsWhole(row[0]) && IsWhole(row[1]) then
      Some(Stock(row[0].Floor, row[1].Floor, row[2], row[3]))
    else
      None
  }

  /** Reading back a saved row gives the same holding. */
  lemma RowRoundTrip(s: Stock)
    ensures FromRow(ToRow(s)) == Some(s)
  {
  }

  /** Every row that reads back has the saved row of what it reads as for its first four
      columns; anything after them is dropped. */
  lemma RowRoundTripBack(row: seq<real>)
    requires FromRow(row).Some?
    ensures ToRow(FromRow(row).value) == row[..4]
  {
  }

  /** The largest relative price move of a simulated market day (five per cent). */
  const MaxChange: real := 0.05

  /** A simulated market move: the current price is scaled by (1 + change). The random
      draw of `change` is a parameter. */
  function SimulateMarket(s: Stock, change: real): (r: Stock)
    ensures r.stockNo == s.stockNo && r.numShares == s.numShares && r.buyPrice == s.buyPrice
    ensures r.currentPrice - s.currentPrice == change * s.currentPrice
    ensures ProfitLoss(r) == ProfitLoss(s) + change * CurrValue(s)
  {
    s.(currentPrice := s.currentPrice * (1.0 + change))
  }

  /** A move drawn from [-MaxChange, MaxChange] keeps a non-negative price within five
      per cent of where it was. */
  lemma SimulateMarketBounded(s: Stock, change: real)
    requires -MaxChange <= change <= MaxChange
    requires s.currentPrice >= 0.0
    ensures 0.95 * s.currentPrice <= SimulateMarket(s, change).currentPrice <= 1.05 * s.currentPrice
  {
    var p := s.currentPrice;
    var up := MaxChange - change;
    var down := MaxChange + change;
    assert p * up >= 0.0 && p * down >= 0.0;
    assert p * (1.0 + change) == 1.05 * p - p * up;
    assert p * (1.0 + change) == 0.95 * p + p * down;
  }
}
