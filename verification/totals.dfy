/** The three portfolio totals: money put in, what it is worth now, and the difference. */
module Totals {
  import opened Stocks

  /** Sum of a per-holding amount over a list of holdings, front to back. */
  function Sum(s: seq<Stock>, f: Stock -> real): real
  {
    if |s| == 0 then 0.0 else f(s[0]) + Sum(s[1..], f)
  }

  /** Summing distributes over concatenation. */
  lemma {:induction false} SumAppend(a: seq<Stock>, b: seq<Stock>, f: Stock -> real)
    ensures Sum(a + b, f) == Sum(a, f) + Sum(b, f)
  {
    if |a| == 0 {
      assert a + b == b;
    } else {
      assert (a + b)[1..] == a[1..] + b;
      SumAppend(a[1..], b, f);
    }
  }

  /** The sum does not depend on the order of the holdings: lists holding the same
      holdings, each as often, have the same sum. */
  lemma {:induction false} SumPermutation(a: seq<Stock>, b: seq<Stock>, f: Stock -> real)
    requires multiset(a) == multiset(b)
    ensures Sum(a, f) == Sum(b, f)
  {
    if |a| == 0 {
      assert |multiset(b)| == 0;
    } else {
      var x := a[0];
      assert x in multiset(b);
      var k :| 0 <= k < |b| && b[k] == x;
      var rest := b[..k] + b[k + 1..];
      assert b == b[..k] + [x] + b[k + 1..];
      assert a == [x] + a[1..];
      calc {
        multiset(b);
        multiset(b[..k] + [x] + b[k + 1..]);
        multiset(b[..k]) + multiset{x} + multiset(b[k + 1..]);
        multiset(rest) + multiset{x};
      }
      assert multiset(a) == multiset(a[1..]) + multiset{x};
      assert multiset(a[1..]) == multiset(a) - multiset{x};
      assert multiset(rest) == multiset(b) - multiset{x};
      SumPermutation(a[1..], rest, f);
      SumAppend(b[..k] + [x], b[k + 1..], f);
      SumAppend(b[..k], [x], f);
      SumAppend(b[..k], b[k + 1..], f);
      assert Sum([x], f) == f(x) + Sum([], f);
    }
  }

  /** Reconciliation: summed profit/loss is summed current value less summed investment. */
  lemma {:induction false} SumReconciles(s: seq<Stock>)
    ensures Sum(s, ProfitLoss) == Sum(s, CurrValue) - Sum(s, Investment)
  {
    if |s| > 0 {
      SumReconciles(s[1..]);
    }
  }

  /** The totals line of the report. */
  datatype PortfolioTotals = PortfolioTotals(investment: real, currentValue: real, overall: real)

  /** The accumulation loop of the report, over the holdings in the order given: running
      totals of investment and current value from zero, then their difference. */
  method Accumulate(stocks: seq<Stock>) returns (t: PortfolioTotals)
    ensures t.investment == Sum(stocks, Investment)
    ensures t.currentValue == Sum(stocks, CurrValue)
    ensures t.overall == t.currentValue - t.investment
    ensures t.overall == Sum(stocks, ProfitLoss)
  {
    var totalInvestment, totalCurrentValue := 0.0, 0.0;
    for n := 0 to |stocks|
      invariant totalInvestment == Sum(stocks[..n], Investment)
      invariant totalCurrentValue == Sum(stocks[..n], CurrValue)
    {
      var stock := stocks[n];
      totalInvestment := totalInvestment + stock.numShares as real * stock.buyPrice;
      totalCurrentValue := totalCurrentValue + CurrValue(stock);
      assert stocks[..n + 1] == stocks[..n] + [stock];
      SumAppend(stocks[..n], [stock], Investment);
      SumAppend(stocks[..n], [stock], CurrValue);
    }
    assert stocks[..|stocks|] == stocks;
    SumReconciles(stocks);
    t := PortfolioTotals(totalInvestment, totalCurrentValue, totalCurrentValue - totalInvestment);
  }
}
