/** The portfolio as an ordered list of holdings, and the three ways the user changes it.
    Insertion order is the canonical order. Identifiers are not required to be unique:
    every lookup scans from the front and acts on the first entry that matches. */
module Portfolios {
  import opened Wrappers
  import opened Stocks

  type Portfolio = seq<Stock>

  /** Some entry carries the identifier. */
  predicate Holds(p: Portfolio, id: int)
  {
    exists j :: 0 <= j < |p| && p[j].stockNo == id
  }

  /** No two entries share an identifier. The code never enforces this; it is the
      condition under which an identifier names a single holding. */
  predicate UniqueIds(p: Portfolio)
  {
    forall i, j :: 0 <= i < j < |p| ==> p[i].stockNo != p[j].stockNo
  }

  /** How many entries carry the identifier. */
  function Count(p: Portfolio, id: int): nat
  {
    if |p| == 0 then 0
    else (if p[0].stockNo == id then 1 else 0) + Count(p[1..], id)
  }

  /** Index of the first entry carrying the identifier, scanning in insertion order. */
  function FindFirst(p: Portfolio, id: int): (r: Option<nat>)
    ensures r.None? <==> !Holds(p, id)
    ensures r.Some? ==> r.value < |p| && p[r.value].stockNo == id
    ensures r.Some? ==> forall j :: 0 <= j < r.value ==> p[j].stockNo != id
  {
    if |p| == 0 then None
    else if p[0].stockNo == id then Some(0)
    else
      match FindFirst(p[1..], id)
      case None =>
        assert forall j :: 1 <= j < |p| ==> p[j] == p[1..][j - 1];
        None
      case Some(i) => Some(i + 1)
  }

  /** The identifier occurs exactly when it is counted at least once. */
  lemma {:induction false} CountPositive(p: Portfolio, id: int)
    ensures Count(p, id) > 0 <==> Holds(p, id)
  {
    if |p| > 0 {
      CountPositive(p[1..], id);
      if Holds(p[1..], id) {
        var j :| 0 <= j < |p[1..]| && p[1..][j].stockNo == id;
        assert p[j + 1].stockNo == id;
      }
      if Holds(p, id) && p[0].stockNo != id {
        var j :| 0 <= j < |p| && p[j].stockNo == id;
        assert p[1..][j - 1].stockNo == id;
      }
    }
  }

  /** Under unique identifiers an identifier is counted at most once. */
  lemma {:induction false} UniqueCountAtMostOne(p: Portfolio, id: int)
    requires UniqueIds(p)
    ensures Count(p, id) <= 1
  {
    if |p| > 0 {
      assert UniqueIds(p[1..]) by {
        forall i, j | 0 <= i < j < |p[1..]|
          ensures p[1..][i].stockNo != p[1..][j].stockNo
        {
          assert p[1..][i] == p[i + 1] && p[1..][j] == p[j + 1];
        }
      }
      UniqueCountAtMostOne(p[1..], id);
      if p[0].stockNo == id {
        assert forall j :: 0 <= j < |p[1..]| ==> p[1..][j] == p[j + 1];
        CountPositive(p[1..], id);
      }
    }
  }

  /** Appends the holding at the end, whether or not its identifier is already present. */
  function AddStock(p: Portfolio, s: Stock): (r: Portfolio)
    ensures |r| == |p| + 1
    ensures r[..|p|] == p && r[|p|] == s
  {
    p + [s]
  }

  /** An index that carries the identifier, with no earlier index carrying it, is the
      one the scan finds. */
  lemma FirstMatchIsFound(p: Portfolio, id: int, i: nat)
    requires i < |p| && p[i].stockNo == id
    requires forall j :: 0 <= j < i ==> p[j].stockNo != id
    ensures FindFirst(p, id) == Some(i)
  {
  }

  /** After an add, a lookup of the added identifier finds the added holding only when the
      identifier was new; an earlier holding with that identifier shadows it. */
  lemma {:induction false} AddThenFind(p: Portfolio, s: Stock)
    ensures FindFirst(AddStock(p, s), s.stockNo)
         == if Holds(p, s.stockNo) then FindFirst(p, s.stockNo) else Some(|p|)
    ensures Count(AddStock(p, s), s.stockNo) == Count(p, s.stockNo) + 1
  {
    var r := AddStock(p, s);
    if Holds(p, s.stockNo) {
      var i := FindFirst(p, s.stockNo).value;
      assert r[i] == p[i];
      FirstMatchIsFound(r, s.stockNo, i);
    } else {
      FirstMatchIsFound(r, s.stockNo, |p|);
    }
    CountAppend(p, [s], s.stockNo);
  }

  /** Counting distributes over concatenation. */
  lemma {:induction false} CountAppend(a: Portfolio, b: Portfolio, id: int)
    ensures Count(a + b, id) == Count(a, id) + Count(b, id)
  {
    if |a| > 0 {
      assert (a + b)[1..] == a[1..] + b;
      CountAppend(a[1..], b, id);
    } else {
      assert a + b == b;
    }
  }

  /** Adding keeps identifiers unique exactly when the added identifier is new. */
  lemma AddKeepsUnique(p: Portfolio, s: Stock)
    ensures UniqueIds(AddStock(p, s)) <==> UniqueIds(p) && !Holds(p, s.stockNo)
  {
  }

  /** Sets the current price of the first holding with the identifier; anything else in the
      list is left alone, and a missing identifier changes nothing. */
  function PriceUpdate(p: Portfolio, id: int, newPrice: real): (r: Portfolio)
    ensures |r| == |p|
    ensures !Holds(p, id) ==> r == p
    ensures Holds(p, id) ==>
              var i := FindFirst(p, id).value;
              && r[i] == p[i].(currentPrice := newPrice)
              && forall j :: 0 <= j < |p| && j != i ==> r[j] == p[j]
  {
    if |p| == 0 then p
    else if p[0].stockNo == id then [p[0].(currentPrice := newPrice)] + p[1..]
    else [p[0]] + PriceUpdate(p[1..], id, newPrice)
  }

  /** A price update never touches identifiers, so it keeps them unique, and a
      non-unique portfolio stays non-unique. */
  lemma PriceUpdateKeepsUnique(p: Portfolio, id: int, newPrice: real)
    ensures UniqueIds(PriceUpdate(p, id, newPrice)) <==> UniqueIds(p)
  {
    var r := PriceUpdate(p, id, newPrice);
    assert forall j :: 0 <= j < |p| ==> r[j].stockNo == p[j].stockNo;
  }

  /** A price update keeps the number of holdings under every identifier. */
  lemma {:induction false} PriceUpdateKeepsCounts(p: Portfolio, id: int, newPrice: real, other: int)
    ensures Count(PriceUpdate(p, id, newPrice), other) == Count(p, other)
  {
    if |p| > 0 && p[0].stockNo != id {
      var r := PriceUpdate(p, id, newPrice);
      assert r[1..] == PriceUpdate(p[1..], id, newPrice);
      PriceUpdateKeepsCounts(p[1..], id, newPrice, other);
    } else if |p| > 0 {
      assert PriceUpdate(p, id, newPrice)[1..] == p[1..];
    }
  }

  /** The answer that confirms a removal: 'y' in either case. */
  predicate Confirms(answer: string)
  {
    answer == "y" || answer == "Y"
  }

  /** Scans for the first holding with the identifier; the user is asked only then, and the
      holding is removed only on a confirming answer. Later holdings with the same
      identifier are never considered. */
  function RemoveStock(p: Portfolio, id: int, answer: string): (r: Portfolio)
    ensures !Confirms(answer) ==> r == p
    ensures |r| == |p| || |r| == |p| - 1
  {
    if |p| == 0 then p
    else if p[0].stockNo == id then (if Confirms(answer) then p[1..] else p)
    else [p[0]] + RemoveStock(p[1..], id, answer)
  }

  /** When the first entry does not match, the scan's answer is the tail's, one further on. */
  lemma FindFirstPastHead(p: Portfolio, id: int)
    requires |p| > 0 && p[0].stockNo != id
    ensures Holds(p, id) <==> Holds(p[1..], id)
    ensures Holds(p, id) ==> FindFirst(p, id).value == FindFirst(p[1..], id).value + 1
  {
    assert FindFirst(p, id) == match FindFirst(p[1..], id)
                               case None => None
                               case Some(k) => Some(k + 1);
  }

  /** Deleting index `k` of the tail and putting the head back deletes index `k + 1`. */
  lemma DeleteBehindHead(p: Portfolio, k: nat)
    requires k + 1 < |p|
    ensures [p[0]] + (p[1..][..k] + p[1..][k + 1..]) == p[..k + 1] + p[k + 2..]
  {
    assert p[1..][..k] == p[1..k + 1];
    assert p[1..][k + 1..] == p[k + 2..];
    assert [p[0]] + p[1..k + 1] == p[..k + 1];
  }

  /** Removal changes nothing when the identifier is absent or the answer does not confirm;
      otherwise it deletes exactly the first holding with the identifier and keeps the
      rest in order. */
  lemma {:induction false} RemoveFirstMatch(p: Portfolio, id: int, answer: string)
    ensures !Holds(p, id) || !Confirms(answer) ==> RemoveStock(p, id, answer) == p
    ensures Holds(p, id) && Confirms(answer) ==>
              var i := FindFirst(p, id).value;
              RemoveStock(p, id, answer) == p[..i] + p[i + 1..]
  {
    if |p| > 0 && p[0].stockNo != id {
      RemoveFirstMatch(p[1..], id, answer);
      FindFirstPastHead(p, id);
      if Holds(p, id) && Confirms(answer) {
        DeleteBehindHead(p, FindFirst(p[1..], id).value);
      }
    } else if |p| > 0 {
      assert p[..0] + p[1..] == p[1..];
    }
  }

  /** A confirmed removal of a present identifier drops exactly one holding: the list
      shrinks by one, loses one occurrence of the identifier, and keeps the count of every
      other identifier. */
  lemma {:induction false} RemoveDropsOne(p: Portfolio, id: int, answer: string, other: int)
    requires Holds(p, id) && Confirms(answer)
    ensures var r := RemoveStock(p, id, answer);
            && |r| == |p| - 1
            && Count(r, id) == Count(p, id) - 1
            && (other != id ==> Count(r, other) == Count(p, other))
  {
    var i := FindFirst(p, id).value;
    RemoveFirstMatch(p, id, answer);
    assert p == p[..i] + [p[i]] + p[i + 1..];
    CountAppend(p[..i] + [p[i]], p[i + 1..], id);
    CountAppend(p[..i], [p[i]], id);
    CountAppend(p[..i], p[i + 1..], id);
    CountAppend(p[..i] + [p[i]], p[i + 1..], other);
    CountAppend(p[..i], [p[i]], other);
    CountAppend(p[..i], p[i + 1..], other);
  }

  /** With unique identifiers, a confirmed removal leaves nothing to find under that
      identifier. */
  lemma {:induction false} RemoveThenNotFound(p: Portfolio, id: int, answer: string)
    requires UniqueIds(p) && Holds(p, id) && Confirms(answer)
    ensures FindFirst(RemoveStock(p, id, answer), id).None?
  {
    UniqueCountAtMostOne(p, id);
    RemoveDropsOne(p, id, answer, id);
    CountPositive(RemoveStock(p, id, answer), id);
  }

  /** A confirmed removal keeps unique identifiers unique. */
  lemma {:induction false} RemoveKeepsUnique(p: Portfolio, id: int, answer: string)
    requires UniqueIds(p) && Holds(p, id) && Confirms(answer)
    ensures UniqueIds(RemoveStock(p, id, answer))
  {
    var r := RemoveStock(p, id, answer);
    var i := FindFirst(p, id).value;
    RemoveFirstMatch(p, id, answer);
    forall a, b | 0 <= a < b < |r|
      ensures r[a].stockNo != r[b].stockNo
    {
      var a' := if a < i then a else a + 1;
      var b' := if b < i then b else b + 1;
      assert r[a] == p[a'] && r[b] == p[b'];
    }
  }
}
