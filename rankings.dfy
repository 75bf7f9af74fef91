/** The catalogue's top-10 queries (controller/product.js):
    `/just-arrived-products` (newest first), `/best-selling-products`
    (most sold first) and `/top-deals-products` (cheapest discount price
    first), each `find().sort(...).limit(10)` over all products. */
module Rankings {
  import opened Entities

  /** How many products a top list holds at most. */
  const LIMIT := 10

  datatype Ranking = NewestFirst | BestSelling | TopDeals

  /** The sort key, oriented so that a larger score comes first:
      `createdAt: -1`, `sold_out: -1`, `discountPrice: 1`. */
  function Score(p: Product, r: Ranking): int
  {
    match r
    case NewestFirst => p.createdAt
    case BestSelling => p.soldOut
    case TopDeals => -p.discountPrice
  }

  predicate Ranked(s: seq<Product>, r: Ranking)
  {
    forall i, j :: 0 <= i < j < |s| ==> Score(s[i], r) >= Score(s[j], r)
  }

  /** Inserts `p` into a ranked list, before the first product it does not
      score below. */
  function Insert(p: Product, s: seq<Product>, r: Ranking): seq<Product>
  {
    if s == [] then [p]
    else if Score(p, r) >= Score(s[0], r) then [p] + s
    else [s[0]] + Insert(p, s[1..], r)
  }

  /** A ranked list stays ranked with a head that scores at least as high
      as every element. */
  lemma RankedCons(hd: Product, rest: seq<Product>, r: Ranking)
    requires Ranked(rest, r)
    requires forall x :: x in rest ==> Score(hd, r) >= Score(x, r)
    ensures Ranked([hd] + rest, r)
  {
    var t := [hd] + rest;
    forall i, j | 0 <= i < j < |t|
      ensures Score(t[i], r) >= Score(t[j], r)
    {
      assert t[j] == rest[j - 1];
      if i > 0 {
        assert t[i] == rest[i - 1];
      }
    }
  }

  /** The tail of a ranked list is ranked, and its head scores at least as
      high as every element of the tail. */
  lemma RankedTail(s: seq<Product>, r: Ranking)
    requires Ranked(s, r) && s != []
    ensures Ranked(s[1..], r)
    ensures forall x :: x in multiset(s[1..]) ==> Score(s[0], r) >= Score(x, r)
  {
    var tl := s[1..];
    forall i, j | 0 <= i < j < |tl|
      ensures Score(tl[i], r) >= Score(tl[j], r)
    {
      assert tl[i] == s[i + 1] && tl[j] == s[j + 1];
    }
    forall x | x in multiset(tl)
      ensures Score(s[0], r) >= Score(x, r)
    {
      var k :| 0 <= k < |tl| && tl[k] == x;
      assert s[k + 1] == x;
    }
  }

  /** Insertion adds `p` once and keeps every other product. */
  lemma {:induction false} InsertPermutes(p: Product, s: seq<Product>, r: Ranking)
    ensures multiset(Insert(p, s, r)) == multiset(s) + multiset{p}
  {
    if s != [] && Score(p, r) < Score(s[0], r) {
      assert s == [s[0]] + s[1..];
      InsertPermutes(p, s[1..], r);
    }
  }

  /** Insertion into a ranked list yields a ranked list. */
  lemma {:induction false} InsertRanked(p: Product, s: seq<Product>, r: Ranking)
    requires Ranked(s, r)
    ensures Ranked(Insert(p, s, r), r)
  {
    if s == [] {
    } else if Score(p, r) >= Score(s[0], r) {
      RankedTail(s, r);
      forall x | x in s
        ensures Score(p, r) >= Score(x, r)
      {
        if x != s[0] {
          assert s == [s[0]] + s[1..];
          assert x in multiset(s[1..]);
        }
      }
      RankedCons(p, s, r);
    } else {
      var hd, tl := s[0], s[1..];
      RankedTail(s, r);
      InsertRanked(p, tl, r);
      InsertPermutes(p, tl, r);
      var rest := Insert(p, tl, r);
      forall x | x in rest
        ensures Score(hd, r) >= Score(x, r)
      {
        assert x in multiset(rest);
      }
      RankedCons(hd, rest, r);
    }
  }

  lemma InsertSpec(p: Product, s: seq<Product>, r: Ranking)
    requires Ranked(s, r)
    ensures multiset(Insert(p, s, r)) == multiset(s) + multiset{p}
    ensures Ranked(Insert(p, s, r), r)
  {
    InsertPermutes(p, s, r);
    InsertRanked(p, s, r);
  }

  /** The products ordered by the ranking. */
  function Sort(s: seq<Product>, r: Ranking): seq<Product>
  {
    if s == [] then [] else Insert(s[0], Sort(s[1..], r), r)
  }

  lemma {:induction false} SortSpec(s: seq<Product>, r: Ranking)
    ensures multiset(Sort(s, r)) == multiset(s)
    ensures Ranked(Sort(s, r), r)
  {
    if s != [] {
      SortSpec(s[1..], r);
      InsertSpec(s[0], Sort(s[1..], r), r);
      assert s == [s[0]] + s[1..];
    }
  }

  function Min(a: int, b: int): int
  {
    if a <= b then a else b
  }

  /** `find().sort(...).limit(10)`. */
  function TopTen(s: seq<Product>, r: Ranking): seq<Product>
  {
    var sorted := Sort(s, r);
    SortSpec(s, r);
    sorted[..Min(LIMIT, |sorted|)]
  }

  /** A prefix of a ranked list is ranked, and nothing after it ranks above
      its last element. */
  lemma RankedPrefix(sorted: seq<Product>, n: nat, r: Ranking)
    requires Ranked(sorted, r) && 0 < n <= |sorted|
    ensures Ranked(sorted[..n], r)
    ensures multiset(sorted[..n]) <= multiset(sorted)
    ensures forall p :: p in multiset(sorted) - multiset(sorted[..n]) ==> Score(p, r) <= Score(sorted[n - 1], r)
  {
    var top := sorted[..n];
    assert sorted == top + sorted[n..];
    assert multiset(sorted) == multiset(top) + multiset(sorted[n..]);
    forall p | p in multiset(sorted) - multiset(top)
      ensures Score(p, r) <= Score(sorted[n - 1], r)
    {
      assert p in multiset(sorted[n..]);
      var k :| n <= k < |sorted| && sorted[k] == p;
    }
  }

  /** A top list holds ten products, or every product when there are
      fewer, ranked, each taken from the catalogue; and no product left out
      ranks above the last one listed. */
  lemma TopTenSpec(s: seq<Product>, r: Ranking)
    ensures |TopTen(s, r)| == Min(LIMIT, |s|)
    ensures Ranked(TopTen(s, r), r)
    ensures multiset(TopTen(s, r)) <= multiset(s)
    ensures |TopTen(s, r)| > 0 ==>
      forall p :: p in multiset(s) - multiset(TopTen(s, r)) ==>
        Score(p, r) <= Score(TopTen(s, r)[|TopTen(s, r)| - 1], r)
  {
    SortSpec(s, r);
    var sorted := Sort(s, r);
    assert |sorted| == |multiset(s)| == |s|;
    if |s| > 0 {
      RankedPrefix(sorted, Min(LIMIT, |s|), r);
    }
  }

  /** The three queries order by what their routes name. */
  lemma TopListOrders(s: seq<Product>)
    ensures forall i, j :: 0 <= i < j < |TopTen(s, NewestFirst)| ==>
      TopTen(s, NewestFirst)[i].createdAt >= TopTen(s, NewestFirst)[j].createdAt
    ensures forall i, j :: 0 <= i < j < |TopTen(s, BestSelling)| ==>
      TopTen(s, BestSelling)[i].soldOut >= TopTen(s, BestSelling)[j].soldOut
    ensures forall i, j :: 0 <= i < j < |TopTen(s, TopDeals)| ==>
      TopTen(s, TopDeals)[i].discountPrice <= TopTen(s, TopDeals)[j].discountPrice
  {
    TopTenSpec(s, NewestFirst);
    TopTenSpec(s, BestSelling);
    TopTenSpec(s, TopDeals);
  }
}
