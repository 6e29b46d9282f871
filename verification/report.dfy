/** What the portfolio report and the value chart derive from the holdings: the ranked
    per-holding lines, the totals, the sign shown in front of each profit/loss, and the
    bar colour. Text formatting and drawing are not modelled. */
module Report {
  import opened Stocks
  import opened Portfolios
  import opened Ranking
  import opened Totals

  /** The prefix printed before an amount: "+" for a gain or break-even, nothing for a
      loss. */
  function SignPrefix(x: real): (prefix: string)
    ensures prefix == "+" <==> x >= 0.0
    ensures prefix == "" <==> x < 0.0
  {
    if x >= 0.0 then "+" else ""
  }

  /** The absolute value printed after the prefix. */
  function Magnitude(x: real): (m: real)
    ensures m >= 0.0
    ensures m == x || m == -x
  {
    if x >= 0.0 then x else -x
  }

  /** How a reader recovers the amount from what is printed: with "+" it is the printed
      magnitude, without it the magnitude is a loss. */
  function ReadBack(prefix: string, magnitude: real): real
  {
    if prefix == "+" then magnitude else -magnitude
  }

  /** The prefix and the magnitude together determine the amount, although a loss is
      printed without a minus sign. */
  lemma SignedAmountRoundTrip(x: real)
    ensures ReadBack(SignPrefix(x), Magnitude(x)) == x
    ensures x < 0.0 ==> SignPrefix(x) == "" && Magnitude(x) > 0.0
  {
  }

  /** The bar colour of a holding in the value chart. */
  function Colour(s: Stock): string
  {
    if ProfitLoss(s) >= 0.0 then "green" else "red"
  }

  /** The colours of the value chart, one per holding in insertion order. */
  function BarColours(p: Portfolio): (colours: seq<string>)
    ensures |colours| == |p|
    ensures forall i :: 0 <= i < |p| ==> (colours[i] == "green" <==> ProfitLoss(p[i]) >= 0.0)
    ensures forall i :: 0 <= i < |p| ==> (colours[i] == "red" <==> ProfitLoss(p[i]) < 0.0)
  {
    seq(|p|, i requires 0 <= i < |p| => Colour(p[i]))
  }

  /** A bar is green exactly when the report prints a "+" before the holding's
      profit/loss. */
  lemma ColourAgreesWithSign(s: Stock)
    ensures Colour(s) == "green" <==> SignPrefix(ProfitLoss(s)) == "+"
    ensures Colour(s) == "red" <==> SignPrefix(ProfitLoss(s)) == ""
  {
  }

  /** One holding's block of the report. */
  datatype Line = Line(stock: Stock, value: real, pl: real, sign: string)

  /** The report: either the empty-portfolio notice, or the ranked lines with the totals
      and the sign printed before the overall profit/loss. */
  datatype Summary =
    | EmptyPortfolio
    | Listing(lines: seq<Line>, totals: PortfolioTotals, overallSign: string)

  /** The line holds the holding's own value, profit/loss and sign. */
  predicate LineDescribes(l: Line)
  {
    l.value == CurrValue(l.stock) && l.pl == ProfitLoss(l.stock) && l.sign == SignPrefix(l.pl)
  }

  /** Every line holds its holding's own value, profit/loss and sign. */
  predicate AllLinesDescribe(lines: seq<Line>)
  {
    forall i :: 0 <= i < |lines| ==> LineDescribes(lines[i])
  }

  /** The holdings in the order the report lists them. */
  function LineStocks(lines: seq<Line>): (s: seq<Stock>)
    ensures |s| == |lines|
    ensures forall i :: 0 <= i < |lines| ==> s[i] == lines[i].stock
  {
    seq(|lines|, i requires 0 <= i < |lines| => lines[i].stock)
  }

  /** The lines list the ranked view (a permutation of the holdings, by descending
      profit/loss), each with its holding's own value, profit/loss and sign. */
  predicate RankedLines(stocks: Portfolio, lines: seq<Line>)
  {
    && LineStocks(lines) == Rank(stocks)
    && multiset(LineStocks(lines)) == multiset(stocks)
    && SortedDesc(LineStocks(lines))
    && AllLinesDescribe(lines)
  }

  /** The totals are the sums over the holdings in their own order, and the overall
      figure is both current value less investment and the summed profit/loss. */
  predicate Reconciled(stocks: Portfolio, t: PortfolioTotals)
  {
    && t.investment == Sum(stocks, Investment)
    && t.currentValue == Sum(stocks, CurrValue)
    && t.overall == t.currentValue - t.investment
    && t.overall == Sum(stocks, ProfitLoss)
  }

  /** The per-holding blocks of the report, one for each holding in the order given. */
  method DescribeLines(sorted: seq<Stock>) returns (lines: seq<Line>)
    ensures LineStocks(lines) == sorted
    ensures AllLinesDescribe(lines)
  {
    lines := [];
    for n := 0 to |sorted|
      invariant |lines| == n
      invariant forall i :: 0 <= i < n ==> lines[i].stock == sorted[i] && LineDescribes(lines[i])
    {
      var stock := sorted[n];
      var pl := ProfitLoss(stock);
      lines := lines + [Line(stock, CurrValue(stock), pl, SignPrefix(pl))];
    }
  }

  /** The report, as computed: nothing for an empty portfolio; otherwise the holdings in
      ranked order, each with its value, profit/loss and sign, then totals summed over the
      ranked order. The totals agree with sums over the portfolio in its own order. */
  method ShowPortfolio(stocks: Portfolio) returns (r: Summary)
    ensures r.EmptyPortfolio? <==> |stocks| == 0
    ensures r.Listing? ==> RankedLines(stocks, r.lines)
    ensures r.Listing? ==> Reconciled(stocks, r.totals)
    ensures r.Listing? ==> (r.overallSign == "+" <==> r.totals.overall >= 0.0)
  {
    if |stocks| == 0 {
      return EmptyPortfolio;
    }
    var sorted := RankedView(stocks);
    var lines := DescribeLines(sorted);
    var totals := Accumulate(sorted);
    SumPermutation(sorted, stocks, Investment);
    SumPermutation(sorted, stocks, CurrValue);
    SumPermutation(sorted, stocks, ProfitLoss);
    assert forall i :: 0 <= i < |lines| ==> lines[i].stock == sorted[i];
    r := Listing(lines, totals, SignPrefix(totals.overall));
  }

  /** A worked case: holding 1 has 10 shares bought at 100 now at 110, holding 2 has
      5 shares bought at 200 now at 190. They rank 1 then 2, with profit/loss +100 and -50,
      and the totals are 2000 invested, 2050 current and +50 overall. Moving holding 2 to
      195 raises the current value to 2075 and the overall result to +75. */
  lemma WorkedExample()
    ensures var p := [Stock(1, 10, 100.0, 110.0), Stock(2, 5, 200.0, 190.0)];
            && ProfitLoss(p[0]) == 100.0 && ProfitLoss(p[1]) == -50.0
            && Rank(p) == p
            && Sum(p, Investment) == 2000.0
            && Sum(p, CurrValue) == 2050.0
            && Sum(p, ProfitLoss) == 50.0
            && Sum(PriceUpdate(p, 2, 195.0), CurrValue) == 2075.0
            && Sum(PriceUpdate(p, 2, 195.0), ProfitLoss) == 75.0
            && PriceUpdate(p, 99, 50.0) == p
  {
    var p := [Stock(1, 10, 100.0, 110.0), Stock(2, 5, 200.0, 190.0)];
    assert p[..1] == [p[0]];
    assert [p[0]][..0] == [];
    assert Rank([p[0]]) == [p[0]];
    assert Insert([p[0]], p[1]) == [p[0]] + Insert([], p[1]);
    var q := PriceUpdate(p, 2, 195.0);
    assert q == [p[0], p[1].(currentPrice := 195.0)];
    assert p[1..] == [p[1]];
    assert q[1..] == [q[1]];
  }
}
