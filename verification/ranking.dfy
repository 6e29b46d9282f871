/** The ranked view shown by the report: the holdings ordered by descending profit/loss,
    built by inserting each holding, in insertion order, before the first already-placed
    holding it strictly beats. Ties therefore keep insertion order. */
module Ranking {
  import opened Stocks

  /** Profit/loss never increases along the list. */
  predicate SortedDesc(s: seq<Stock>)
  {
    forall i, j :: 0 <= i < j < |s| ==> ProfitLoss(s[i]) >= ProfitLoss(s[j])
  }

  /** The holdings whose profit/loss is exactly `v`, in their order in `s`. */
  function Filter(s: seq<Stock>, v: real): seq<Stock>
  {
    if |s| == 0 then []
    else (if ProfitLoss(s[0]) == v then [s[0]] else []) + Filter(s[1..], v)
  }

  /** One step of the outer loop: `x` goes before the first holding whose profit/loss it
      strictly exceeds, or at the end when there is none. */
  function Insert(s: seq<Stock>, x: Stock): (r: seq<Stock>)
    ensures |r| == |s| + 1
  {
    if |s| == 0 then [x]
    else if ProfitLoss(x) > ProfitLoss(s[0]) then [x] + s
    else [s[0]] + Insert(s[1..], x)
  }

  /** The ranked view: every holding, in insertion order, inserted into the list built
      so far. */
  function Rank(p: seq<Stock>): (r: seq<Stock>)
    ensures |r| == |p|
  {
    if |p| == 0 then []
    else Insert(Rank(p[..|p| - 1]), p[|p| - 1])
  }

  /** An insertion step adds exactly the one holding. */
  lemma {:induction false} InsertPermutes(s: seq<Stock>, x: Stock)
    ensures multiset(Insert(s, x)) == multiset(s) + multiset{x}
  {
    if |s| > 0 && ProfitLoss(x) <= ProfitLoss(s[0]) {
      InsertPermutes(s[1..], x);
      assert s == [s[0]] + s[1..];
    }
  }

  /** An insertion step brings in no profit/loss above a bound that `x` and all of `s`
      respect. */
  lemma {:induction false} InsertBelow(s: seq<Stock>, x: Stock, bound: real)
    requires forall k :: 0 <= k < |s| ==> ProfitLoss(s[k]) <= bound
    requires ProfitLoss(x) <= bound
    ensures forall k :: 0 <= k < |Insert(s, x)| ==> ProfitLoss(Insert(s, x)[k]) <= bound
  {
    if |s| > 0 && ProfitLoss(x) <= ProfitLoss(s[0]) {
      InsertBelow(s[1..], x, bound);
      var t := Insert(s[1..], x);
      assert Insert(s, x) == [s[0]] + t;
      assert forall k :: 1 <= k < |t| + 1 ==> ([s[0]] + t)[k] == t[k - 1];
    }
  }

  /** An insertion step keeps a descending list descending. */
  lemma {:induction false} InsertKeepsSorted(s: seq<Stock>, x: Stock)
    requires SortedDesc(s)
    ensures SortedDesc(Insert(s, x))
  {
    if |s| > 0 && ProfitLoss(x) <= ProfitLoss(s[0]) {
      var t := Insert(s[1..], x);
      SortedTail(s);
      InsertKeepsSorted(s[1..], x);
      InsertBelow(s[1..], x, ProfitLoss(s[0]));
      var r := [s[0]] + t;
      assert Insert(s, x) == r;
      forall i, j | 0 <= i < j < |r|
        ensures ProfitLoss(r[i]) >= ProfitLoss(r[j])
      {
        assert r[j] == t[j - 1];
        if i > 0 {
          assert r[i] == t[i - 1];
        }
      }
    }
  }

  /** The ranked view holds exactly the portfolio's holdings, each as often. */
  lemma {:induction false} RankPermutes(p: seq<Stock>)
    ensures multiset(Rank(p)) == multiset(p)
  {
    if |p| > 0 {
      RankPermutes(p[..|p| - 1]);
      InsertPermutes(Rank(p[..|p| - 1]), p[|p| - 1]);
      assert p == p[..|p| - 1] + [p[|p| - 1]];
    }
  }

  /** The ranked view is ordered by descending profit/loss. */
  lemma {:induction false} RankSorted(p: seq<Stock>)
    ensures SortedDesc(Rank(p))
  {
    if |p| > 0 {
      RankSorted(p[..|p| - 1]);
      InsertKeepsSorted(Rank(p[..|p| - 1]), p[|p| - 1]);
    }
  }

  /** Filtering distributes over concatenation. */
  lemma {:induction false} FilterAppend(a: seq<Stock>, b: seq<Stock>, v: real)
    ensures Filter(a + b, v) == Filter(a, v) + Filter(b, v)
  {
    if |a| == 0 {
      assert a + b == b;
    } else {
      var h := if ProfitLoss(a[0]) == v then [a[0]] else [];
      assert (a + b)[0] == a[0];
      assert (a + b)[1..] == a[1..] + b;
      assert Filter(a + b, v) == h + Filter(a[1..] + b, v);
      FilterAppend(a[1..], b, v);
      assert Filter(a, v) == h + Filter(a[1..], v);
    }
  }

  /** A list with no holding of profit/loss `v` filters to nothing. */
  lemma {:induction false} FilterNone(s: seq<Stock>, v: real)
    requires forall k :: 0 <= k < |s| ==> ProfitLoss(s[k]) != v
    ensures Filter(s, v) == []
  {
    if |s| > 0 {
      FilterNone(s[1..], v);
    }
  }

  /** The tail of a descending list is descending. */
  lemma SortedTail(s: seq<Stock>)
    requires |s| > 0 && SortedDesc(s)
    ensures SortedDesc(s[1..])
  {
    assert forall k :: 0 <= k < |s[1..]| ==> s[1..][k] == s[k + 1];
  }

  /** Filtering a list with a given first holding. */
  lemma FilterCons(x: Stock, t: seq<Stock>, v: real)
    ensures Filter([x] + t, v) == (if ProfitLoss(x) == v then [x] else []) + Filter(t, v)
  {
    assert ([x] + t)[0] == x;
    assert ([x] + t)[1..] == t;
  }

  /** Inserting into a sorted list places the new holding after every holding of equal
      profit/loss: the per-value sub-sequences only grow at their end. */
  lemma {:induction false} InsertStable(s: seq<Stock>, x: Stock, v: real)
    requires SortedDesc(s)
    ensures Filter(Insert(s, x), v) == Filter(s, v) + (if ProfitLoss(x) == v then [x] else [])
  {
    if |s| == 0 {
      FilterCons(x, [], v);
    } else if ProfitLoss(x) > ProfitLoss(s[0]) {
      FilterCons(x, s, v);
      if ProfitLoss(x) == v {
        FilterNone(s, v);
      }
    } else {
      SortedTail(s);
      InsertStable(s[1..], x, v);
      FilterCons(s[0], Insert(s[1..], x), v);
      FilterCons(s[0], s[1..], v);
      assert [s[0]] + s[1..] == s;
    }
  }

  /** Stability: for every profit/loss value, the holdings with that value appear in the
      ranked view in the same order as in the portfolio. */
  lemma {:induction false} RankStable(p: seq<Stock>, v: real)
    ensures Filter(Rank(p), v) == Filter(p, v)
  {
    if |p| > 0 {
      var q := p[..|p| - 1];
      var x := p[|p| - 1];
      RankStable(q, v);
      RankSorted(q);
      InsertStable(Rank(q), x, v);
      FilterAppend(q, [x], v);
      assert Filter([x], v) == (if ProfitLoss(x) == v then [x] else []) + Filter([], v);
      assert q + [x] == p;
    }
  }

  /** Two lists sorted by descending profit/loss that agree on every per-value
      sub-sequence are the same list. */
  lemma {:induction false} StableSortUnique(a: seq<Stock>, b: seq<Stock>)
    requires SortedDesc(a) && SortedDesc(b)
    requires forall v :: Filter(a, v) == Filter(b, v)
    ensures a == b
  {
    if |a| == 0 || |b| == 0 {
      FilterHead(a);
      FilterHead(b);
    } else {
      var ka := ProfitLoss(a[0]);
      var kb := ProfitLoss(b[0]);
      assert Filter(a, ka) == [a[0]] + Filter(a[1..], ka);
      assert Filter(b, kb) == [b[0]] + Filter(b[1..], kb);
      FilterMember(b, ka, Filter(b, ka)[0]);
      FilterMember(a, kb, Filter(a, kb)[0]);
      assert ka == kb;
      forall v
        ensures Filter(a[1..], v) == Filter(b[1..], v)
      {
        var h := if ProfitLoss(a[0]) == v then [a[0]] else [];
        assert Filter(a, v) == h + Filter(a[1..], v);
        assert Filter(b, v) == h + Filter(b[1..], v);
        assert Filter(a, v) == Filter(b, v);
        assert Filter(a[1..], v) == (h + Filter(a[1..], v))[|h|..];
        assert Filter(b[1..], v) == (h + Filter(b[1..], v))[|h|..];
      }
      assert SortedDesc(a[1..]) by {
        assert forall k :: 0 <= k < |a[1..]| ==> a[1..][k] == a[k + 1];
      }
      assert SortedDesc(b[1..]) by {
        assert forall k :: 0 <= k < |b[1..]| ==> b[1..][k] == b[k + 1];
      }
      StableSortUnique(a[1..], b[1..]);
      assert a == [a[0]] + a[1..] && b == [b[0]] + b[1..];
    }
  }

  /** A non-empty list keeps its head under the head's own value. */
  lemma FilterHead(s: seq<Stock>)
    ensures |s| > 0 ==> Filter(s, ProfitLoss(s[0])) != []
    ensures |s| == 0 ==> forall v :: Filter(s, v) == []
  {
  }

  /** A holding picked out of a descending list by its value is no better than the head. */
  lemma {:induction false} FilterMember(s: seq<Stock>, v: real, y: Stock)
    requires SortedDesc(s) && |s| > 0
    requires y in Filter(s, v)
    ensures y in s && ProfitLoss(y) == v && ProfitLoss(s[0]) >= v
  {
    if ProfitLoss(s[0]) != v {
      assert y in Filter(s[1..], v);
      assert |s[1..]| > 0;
      assert SortedDesc(s[1..]) by {
        assert forall k :: 0 <= k < |s[1..]| ==> s[1..][k] == s[k + 1];
      }
      FilterMember(s[1..], v, y);
      assert s[1..][0] == s[1];
    } else if y != s[0] && |s| > 1 {
      assert y in Filter(s[1..], v);
      assert SortedDesc(s[1..]) by {
        assert forall k :: 0 <= k < |s[1..]| ==> s[1..][k] == s[k + 1];
      }
      FilterMember(s[1..], v, y);
    }
  }

  /** The ranked view is sorted by descending profit/loss and keeps every per-value
      sub-sequence of the portfolio. */
  lemma RankIsStableSort(p: seq<Stock>)
    ensures SortedDesc(Rank(p))
    ensures forall v :: Filter(Rank(p), v) == Filter(p, v)
  {
    forall v
      ensures Filter(Rank(p), v) == Filter(p, v)
    {
      RankStable(p, v);
    }
    RankSorted(p);
  }

  /** Conversely, any list sorted by descending profit/loss that keeps every per-value
      sub-sequence of the portfolio is the ranked view: the ranking is the one and only
      stable descending ordering. */
  lemma StableSortIsRank(p: seq<Stock>, q: seq<Stock>)
    requires SortedDesc(q)
    requires forall v :: Filter(q, v) == Filter(p, v)
    ensures q == Rank(p)
  {
    RankIsStableSort(p);
    StableSortUnique(q, Rank(p));
  }

  /** Placing `x` at index `i` of `s` is an insertion step when no holding before `i`
      is strictly beaten by `x` and the one at `i`, if any, is. */
  lemma {:induction false} InsertAt(s: seq<Stock>, x: Stock, i: nat)
    requires i <= |s|
    requires forall k :: 0 <= k < i ==> ProfitLoss(x) <= ProfitLoss(s[k])
    requires i < |s| ==> ProfitLoss(x) > ProfitLoss(s[i])
    ensures Insert(s, x) == s[..i] + [x] + s[i..]
  {
    if i > 0 {
      assert Insert(s, x) == [s[0]] + Insert(s[1..], x);
      InsertAt(s[1..], x, i - 1);
      assert s[1..][..i - 1] == s[1..i];
      assert s[1..][i - 1..] == s[i..];
      assert s[..i] == [s[0]] + s[1..i];
    }
  }

  /** The inner scan of the ranking loop, as written: look for the first placed holding
      that `stock` strictly beats, insert before it and stop, or append when there is
      none. */
  method InsertStep(placed: seq<Stock>, stock: Stock) returns (sorted: seq<Stock>)
    ensures sorted == Insert(placed, stock)
  {
    var i := 0;
    while i < |placed|
      invariant 0 <= i <= |placed|
      invariant forall k :: 0 <= k < i ==> ProfitLoss(stock) <= ProfitLoss(placed[k])
    {
      if ProfitLoss(stock) > ProfitLoss(placed[i]) {
        InsertAt(placed, stock, i);
        return placed[..i] + [stock] + placed[i..];
      }
      i := i + 1;
    }
    InsertAt(placed, stock, |placed|);
    sorted := placed + [stock];
  }

  /** The ranking loop of the report, as written: each holding in insertion order goes
      through the inner scan into the ranked list built so far. The portfolio itself is
      not reordered. */
  method RankedView(stocks: seq<Stock>) returns (sorted: seq<Stock>)
    ensures sorted == Rank(stocks)
    ensures multiset(sorted) == multiset(stocks)
    ensures SortedDesc(sorted)
    ensures forall v :: Filter(sorted, v) == Filter(stocks, v)
  {
    sorted := [];
    for n := 0 to |stocks|
      invariant sorted == Rank(stocks[..n])
    {
      sorted := InsertStep(sorted, stocks[n]);
      assert stocks[..n + 1][..n] == stocks[..n];
    }
    assert stocks[..|stocks|] == stocks;
    RankPermutes(stocks);
    RankSorted(stocks);
    forall v
      ensures Filter(sorted, v) == Filter(stocks, v)
    {
      RankStable(stocks, v);
    }
  }
}
