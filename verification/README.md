# Stock portfolio tracker: the in-memory portfolio logic

This project models the in-memory part of a small personal stock-portfolio tracker and
proves properties of that model in Dafny. A holding (`Stock`) records an identifier, a
share count, a buy price and a current price. The portfolio is the ordered list of
holdings, and insertion order is its canonical order. The model covers:

- valuation: current value, cost and profit/loss of a holding, and its saved row
  (`stock.dfy`, module `Stocks`);
- the three mutations the user can make: add a holding, update the price of a holding,
  and remove a holding after confirming (`portfolio.dfy`, module `Portfolios`);
- the ranking loop of the report. It is a hand-written insertion sort by descending
  profit/loss, and it is stable (`ranking.dfy`, module `Ranking`);
- the totals of the report, summed over the ranked list (`totals.dfy`, module `Totals`);
- the report as a whole, the "+" sign prefix and the chart bar colour (`report.dfy`,
  module `Report`).

Prices are exact `real`s. Identifiers and share counts are unbounded `int`s, and the
code checks neither for sign. The portfolio is a `seq<Stock>` and every operation is a
pure function of it. Because of that, the report cannot reorder the portfolio itself:
the ranked view is a separate value.

The code does not enforce unique identifiers. The model therefore allows duplicates.
Price update and removal act on the FIRST entry with the identifier (`FindFirst`). Adding
a holding whose identifier is already present appends it anyway, and the earlier entry
then hides it from lookups (`AddThenFind`). `UniqueIds` names the condition under which
an identifier picks out a single holding. The lemmas show that add keeps this condition
exactly when the identifier is new, that price update always keeps it, and that a
confirmed removal keeps it.

Three behaviours of the code are worth stating plainly, because a reader might expect
otherwise:

- There is no duplicate-identifier error on add, and no not-found or invalid-price error.
  A price update with an unknown identifier changes nothing, and a negative price is
  stored as given. A removal with an unknown identifier, or without a confirming answer,
  changes nothing.
- Removal asks for confirmation inside the operation. The answer is a parameter, and it
  confirms when it is `y` or `Y`, which is what lower-casing and comparing with `y`
  accepts.
- The report prints a profit/loss as a prefix followed by the absolute value. The prefix
  is "+" for a value of zero or more and empty otherwise. So a loss is printed WITHOUT a
  minus sign. `SignedAmountRoundTrip` shows that the printed
  pair (prefix, magnitude) still determines the amount.

## Model

| member | source | states |
|---|---|---|
| Stocks.CurrValue | task02.py:18-20 | a holding with no shares is worth nothing, and a non-negative share count at a non-negative price is worth a non-negative amount |
| Stocks.Investment | task02.py:24 | a holding with no shares cost nothing, and a non-negative share count bought at a non-negative price cost a non-negative amount |
| Stocks.ProfitLoss | task02.py:22-24 | profit/loss is the share count times the per-share difference (current price − buy price) |
| Stocks.ValueSplits | task02.py:18-24 | current value = cost + profit/loss |
| Stocks.ProfitLossSign | task02.py:22-24 | for a holding of at least one share, profit/loss ≥ 0 iff current price ≥ buy price, and it is 0 iff the two prices are equal |
| Stocks.ToRow | task02.py:26-28 | the saved row has exactly four fields in the fixed order stock number, share count, buy price, current price |
| Stocks.FromRow | task02.py:116-123 | a row reads back as a holding iff it has at least four fields and the two integer columns hold whole numbers; the holding's fields are the first four columns in saved order, and later columns are ignored |
| Stocks.RowRoundTrip | task02.py:26-28 | reading back the saved row of a holding gives that same holding |
| Stocks.RowRoundTripBack | task02.py:116-123 | for every row that reads back, the first four columns are exactly the saved row of the holding it reads as |
| Stocks.SimulateMarket | task02.py:130-133 | a simulated move changes only the current price, which moves by change × the old price, and it shifts profit/loss by change × current value |
| Stocks.SimulateMarketBounded | task02.py:130-133 | a change drawn from [−5%, +5%] keeps a non-negative price between 95% and 105% of its old value |
| Portfolios.FindFirst | task02.py:43-44 | the scan finds nothing iff no entry has the identifier; otherwise it returns an index that has the identifier, with no earlier entry having it |
| Portfolios.AddStock | task02.py:36-39 | add grows the list by one, keeps every earlier entry, and puts the new holding last, with no duplicate check |
| Portfolios.AddThenFind | task02.py:36-39 | after add, a lookup of the added identifier finds the new holding iff the identifier was new; otherwise it finds the old first match; the identifier's count goes up by one |
| Portfolios.AddKeepsUnique | task02.py:36-39 | identifiers stay unique after add iff they were unique before and the added identifier was absent |
| Portfolios.PriceUpdate | task02.py:41-49 | the length is kept; if no entry matches, the list is unchanged; otherwise only the first match changes, and only its current price, which becomes the new price |
| Portfolios.PriceUpdateKeepsUnique | task02.py:41-49 | identifiers are unique after a price update iff they were unique before |
| Portfolios.PriceUpdateKeepsCounts | task02.py:41-49 | a price update keeps the number of holdings under every identifier |
| Portfolios.RemoveStock | task02.py:51-60 | without a confirming answer (`y` or `Y`, `Confirms`) nothing changes, and at most one holding is ever removed |
| Portfolios.RemoveFirstMatch | task02.py:51-60 | with no match or no confirming answer, the list is unchanged; otherwise exactly the first matching entry is deleted and the rest keep their order |
| Portfolios.RemoveDropsOne | task02.py:51-60 | a confirmed removal of a present identifier shrinks the list by one, lowers that identifier's count by one, and keeps every other identifier's count |
| Portfolios.RemoveThenNotFound | task02.py:51-60 | with unique identifiers, after a confirmed removal the identifier is no longer found |
| Portfolios.RemoveKeepsUnique | task02.py:51-60 | with unique identifiers, a confirmed removal keeps them unique |
| Ranking.Insert | task02.py:72-78 | one insertion step adds exactly one holding to the list |
| Ranking.InsertPermutes | task02.py:72-78 | one insertion step adds exactly the inserted holding to the multiset |
| Ranking.InsertKeepsSorted | task02.py:72-78 | inserting into a list ordered by descending profit/loss keeps it ordered |
| Ranking.InsertStable | task02.py:72-78 | because the comparison is strict, the inserted holding goes after every holding with equal profit/loss: each per-value sub-sequence only grows at its end |
| Ranking.InsertAt | task02.py:72-78 | inserting before the first holding the new one strictly beats (or appending when there is none) is the insertion step |
| Ranking.InsertStep | task02.py:71-78 | the inner scan with early exit (insert before the first holding strictly beaten, else append) computes the insertion step |
| Ranking.Rank | task02.py:69-78 | the ranked view has as many entries as the portfolio |
| Ranking.RankPermutes | task02.py:69-78 | the ranked view is a permutation of the portfolio: same holdings, same multiplicities |
| Ranking.RankSorted | task02.py:69-78 | the ranked view is ordered by non-increasing profit/loss |
| Ranking.RankStable | task02.py:69-78 | for every value v, the holdings with profit/loss v appear in the same order in the ranked view as in the portfolio |
| Ranking.RankIsStableSort | task02.py:69-78 | the ranked view is sorted and keeps every per-value sub-sequence of the portfolio |
| Ranking.StableSortIsRank | task02.py:69-78 | any sorted list that keeps every per-value sub-sequence of the portfolio IS the ranked view, so the ranking is the unique stable descending sort |
| Ranking.RankedView | task02.py:68-78 | the nested loop with early exit builds a permutation of the portfolio, sorted by descending profit/loss and stable, equal to the stable sort |
| Totals.SumPermutation | task02.py:84-88 | sums over two orderings of the same holdings are equal, so summing over the ranked view gives the canonical-order totals |
| Totals.SumReconciles | task02.py:84-97 | summed profit/loss equals summed current value minus summed investment |
| Totals.Accumulate | task02.py:80-97 | the running totals are the summed investment and current value of the holdings, and the overall figure is their difference, which equals the summed profit/loss |
| Report.SignPrefix | task02.py:90 | the prefix is "+" iff the amount is ≥ 0, and empty iff it is < 0 |
| Report.Magnitude | task02.py:94 | the printed magnitude is never negative and is the amount or its negation |
| Report.SignedAmountRoundTrip | task02.py:94 | the printed prefix and absolute value determine the amount; a loss prints with an empty prefix and a positive magnitude |
| Report.BarColours | task02.py:139 | one colour per holding in insertion order (`Colour`), green iff its profit/loss ≥ 0, red iff < 0 |
| Report.ColourAgreesWithSign | task02.py:139 | a bar is green iff the report prints "+" before that holding's profit/loss |
| Report.DescribeLines | task02.py:84-95 | one block per holding, in the order given, each holding its own current value, profit/loss, and the "+" prefix iff that profit/loss is ≥ 0 |
| Report.ShowPortfolio | task02.py:62-101 | an empty portfolio gives only the notice. Otherwise: the lines list the ranked view, each with its own value, profit/loss and sign, ordered by profit/loss; the totals equal the canonical-order sums; overall = current − investment = summed profit/loss; the overall sign is "+" iff overall ≥ 0 |
| Report.WorkedExample | task02.py:62-101 | two holdings (+100 and −50) rank in insertion order and total 2000 / 2050 / +50; updating holding 2 to 195 gives 2075 / +75; updating an unknown identifier changes nothing |

## Left out

- Saving to and loading from the CSV file (task02.py:103-128): file I/O, text parsing and
  exception handling. Only the row order of `to_list` and the column-to-field mapping of
  the load are modelled, as `ToRow` and `FromRow` over numeric fields. Text that does not
  parse, and a row with fewer than four fields, raise an error that ends the whole load
  with the holdings read so far kept. `FromRow` gives `None` for such a row, but the
  early end of the loading loop is not modelled.
- Stocks.SimulateMarket: the random draw of the change is a parameter, because
  randomness is not modelled. `SimulateMarketBounded` assumes the ±5% range of the draw.
- The chart drawing in `visualize_portfolio` (task02.py:141-155). Only the colour rule is
  modelled; the plotting calls and the investment/value line chart are not.
- The confirmation prompt, the log and print messages, the two-decimal number formatting,
  and the interactive menu loop with its save after every action (task02.py:157-213).
  These are console I/O. The confirmation answer is a parameter of `RemoveStock`.
- Floating point: prices and sums are exact reals. Rounding in products, in sums, and in
  the order-dependence of float addition is not modelled. Neither are NaN and infinity,
  which `float()` accepts from the prompts (task02.py:176-177, 187). With a NaN price
  the comparison `>` of the ranking never holds and `>= 0` is false, so the ranked view
  need not be sorted and a NaN holding is shown without "+" and drawn red.
- Object identity: the code mutates `Stock` objects in place. `list.remove` compares with
  `==`, and because `Stock` defines no `__eq__` that comparison is object identity. The
  model treats entries as values. The two agree because the menu never puts the same
  object in the list twice, so the first entry equal to the found one is the found one.
