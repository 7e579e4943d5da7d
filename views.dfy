/**
 * The views the dashboard derives from its state on every render:
 * the campaigns table sorted by ACoS, the products list filtered by
 * category and cut to the visible count, and the total spend shown above it.
 */
module Views {
  import opened Records
  import opened Lists

  /** The category filter value that selects every product. */
  const AllCategories: string := "All"

  // ---------------------------------------------------------------------
  // Spend totals: `list.reduce((acc, p) => acc + p.spend, 0)`
  // ---------------------------------------------------------------------

  ghost predicate NonNegativeSpends(ps: seq<Product>)
  {
    forall i :: 0 <= i < |ps| ==> ps[i].spend >= 0.0
  }

  /** The left fold of `reduce`: the sum of `spend` over the list, 0 for an empty list. */
  function SpendTotal(ps: seq<Product>): (total: real)
    ensures ps == [] ==> total == 0.0
    ensures NonNegativeSpends(ps) ==> total >= 0.0
  {
    if ps == [] then 0.0 else SpendTotal(ps[..|ps| - 1]) + ps[|ps| - 1].spend
  }

  /** The total of two lists laid end to end is the sum of their totals. */
  lemma {:induction false} SpendTotalAppend(a: seq<Product>, b: seq<Product>)
    ensures SpendTotal(a + b) == SpendTotal(a) + SpendTotal(b)
  {
    if b != [] {
      assert (a + b)[..|a + b| - 1] == a + b[..|b| - 1];
      SpendTotalAppend(a, b[..|b| - 1]);
    } else {
      assert a + b == a;
    }
  }

  /** With non-negative spends, each product's spend is at most the total. */
  lemma {:induction false} SpendAtMostTotal(ps: seq<Product>, k: nat)
    requires k < |ps| && NonNegativeSpends(ps)
    ensures ps[k].spend <= SpendTotal(ps)
  {
    var init := ps[..|ps| - 1];
    assert NonNegativeSpends(init);
    if k < |ps| - 1 {
      SpendAtMostTotal(init, k);
    }
  }

  /** With non-negative spends, dropping products from a list never raises its total. */
  lemma {:induction false} FilterSpendAtMost(ps: seq<Product>, p: Product -> bool)
    requires NonNegativeSpends(ps)
    ensures SpendTotal(Filter(ps, p)) <= SpendTotal(ps)
  {
    if ps != [] {
      var t := ps[1..];
      assert ps == [ps[0]] + t;
      assert NonNegativeSpends(t);
      FilterSpendAtMost(t, p);
      FilterCons(ps[0], t, p);
      SpendTotalAppend([ps[0]], t);
      SpendTotalAppend(if p(ps[0]) then [ps[0]] else [], Filter(t, p));
      assert SpendTotal([ps[0]]) == ps[0].spend by {
        assert [ps[0]][..0] == [];
      }
    }
  }

  /** With non-negative spends, a prefix totals at most the whole list. */
  lemma PrefixSpendAtMost(ps: seq<Product>, n: nat)
    requires NonNegativeSpends(ps)
    ensures SpendTotal(Take(ps, n)) <= SpendTotal(ps)
  {
    if n < |ps| {
      assert ps == ps[..n] + ps[n..];
      assert NonNegativeSpends(ps[n..]);
      SpendTotalAppend(ps[..n], ps[n..]);
    }
  }

  // ---------------------------------------------------------------------
  // The campaigns table: `[...campaigns].sort(...)` by acos
  // ---------------------------------------------------------------------

  /**
   * `a` may stay in front of `b`: the comparator `b.acos - a.acos` (for
   * 'desc') or `a.acos - b.acos` (for 'asc') is not positive.
   */
  predicate InOrder(order: SortOrder, a: Campaign, b: Campaign)
  {
    match order
    case Desc => a.acos >= b.acos
    case Asc => a.acos <= b.acos
  }

  /** Every pair of rows, not only neighbours, is in order. */
  ghost predicate Ordered(order: SortOrder, r: seq<Campaign>)
  {
    forall i, j :: 0 <= i < j < |r| ==> InOrder(order, r[i], r[j])
  }

  /**
   * Inserts `x` in front of the first row that need not precede it, so that
   * `x` stays ahead of every row with the same acos.
   */
  function Insert(order: SortOrder, x: Campaign, r: seq<Campaign>): (r': seq<Campaign>)
    ensures |r'| == |r| + 1 && multiset(r') == multiset(r) + multiset{x}
  {
    if r == [] || InOrder(order, x, r[0]) then [x] + r
    else
      assert r == [r[0]] + r[1..];
      [r[0]] + Insert(order, x, r[1..])
  }

  /** Inserting into an ordered list keeps it ordered. */
  lemma {:induction false} InsertOrdered(order: SortOrder, x: Campaign, r: seq<Campaign>)
    requires Ordered(order, r)
    ensures Ordered(order, Insert(order, x, r))
  {
    if r != [] && !InOrder(order, x, r[0]) {
      var t := r[1..];
      assert Ordered(order, t);
      InsertOrdered(order, x, t);
      var rest := Insert(order, x, t);
      forall j | 0 <= j < |rest| ensures InOrder(order, r[0], rest[j]) {
        assert rest[j] in multiset(rest);
        if rest[j] != x {
          assert rest[j] in multiset(t);
          var m :| 0 <= m < |t| && t[m] == rest[j];
          assert r[m + 1] == t[m];
        }
      }
    }
  }

  /**
   * The table order: a stable insertion sort of a copy of the list, as
   * `Array.prototype.sort` with the ACoS comparator produces it.
   */
  function SortByAcos(order: SortOrder, s: seq<Campaign>): (r: seq<Campaign>)
    ensures |r| == |s| && multiset(r) == multiset(s)
    ensures Ordered(order, r)
  {
    if s == [] then []
    else
      assert s == [s[0]] + s[1..];
      var rest := SortByAcos(order, s[1..]);
      InsertOrdered(order, s[0], rest);
      Insert(order, s[0], rest)
  }

  /** In 'desc' mode the acos column never increases down the table. */
  lemma SortedDescending(s: seq<Campaign>, i: nat, j: nat)
    requires i < j < |s|
    ensures SortByAcos(Desc, s)[i].acos >= SortByAcos(Desc, s)[j].acos
  {
  }

  /** In 'asc' mode the acos column never decreases down the table. */
  lemma SortedAscending(s: seq<Campaign>, i: nat, j: nat)
    requires i < j < |s|
    ensures SortByAcos(Asc, s)[i].acos <= SortByAcos(Asc, s)[j].acos
  {
  }

  /**
   * Removing rows from an ordered list commutes with inserting one row:
   * `x` lands after exactly the rows that must precede it.
   */
  lemma {:induction false} FilterInsert(order: SortOrder, x: Campaign, r: seq<Campaign>, p: Campaign -> bool)
    requires Ordered(order, r)
    ensures Filter(Insert(order, x, r), p)
         == if p(x) then Insert(order, x, Filter(r, p)) else Filter(r, p)
  {
    if r == [] || InOrder(order, x, r[0]) {
      FilterInsertInFront(order, x, r, p);
    } else {
      var t := r[1..];
      assert r == [r[0]] + t;
      assert Ordered(order, t);
      FilterInsert(order, x, t, p);
      FilterInsertBehind(order, x, r, p);
    }
  }

  /** The case of FilterInsert where `x` goes in front of the whole list. */
  lemma FilterInsertInFront(order: SortOrder, x: Campaign, r: seq<Campaign>, p: Campaign -> bool)
    requires Ordered(order, r)
    requires r == [] || InOrder(order, x, r[0])
    ensures Filter(Insert(order, x, r), p)
         == if p(x) then Insert(order, x, Filter(r, p)) else Filter(r, p)
  {
    var fr := Filter(r, p);
    assert Insert(order, x, r) == [x] + r;
    FilterCons(x, r, p);
    if p(x) {
      if fr != [] {
        // the first surviving row comes no earlier than r[0], so x may stay ahead of it
        assert fr[0] in r;
        var m :| 0 <= m < |r| && r[m] == fr[0];
        assert m == 0 || InOrder(order, r[0], r[m]);
        assert InOrder(order, x, fr[0]);
      }
      assert Insert(order, x, fr) == [x] + fr;
    } else {
      assert [] + fr == fr;
    }
  }

  /** The case of FilterInsert where `x` goes behind the first row, given the claim for the rest. */
  lemma FilterInsertBehind(order: SortOrder, x: Campaign, r: seq<Campaign>, p: Campaign -> bool)
    requires r != [] && !InOrder(order, x, r[0])
    requires Filter(Insert(order, x, r[1..]), p)
          == if p(x) then Insert(order, x, Filter(r[1..], p)) else Filter(r[1..], p)
    ensures Filter(Insert(order, x, r), p)
         == if p(x) then Insert(order, x, Filter(r, p)) else Filter(r, p)
  {
    var t := r[1..];
    var it := Insert(order, x, t);
    assert r == [r[0]] + t;
    assert Insert(order, x, r) == [r[0]] + it;
    FilterCons(r[0], it, p);
    FilterCons(r[0], t, p);
    if p(x) && p(r[0]) {
      assert Insert(order, x, [r[0]] + Filter(t, p)) == [r[0]] + Insert(order, x, Filter(t, p));
    } else if !p(r[0]) {
      assert [] + Filter(t, p) == Filter(t, p);
      assert [] + Filter(it, p) == Filter(it, p);
    }
  }

  /** Sorting then filtering is filtering then sorting. */
  lemma {:induction false} SortCommutesWithFilter(order: SortOrder, s: seq<Campaign>, p: Campaign -> bool)
    ensures Filter(SortByAcos(order, s), p) == SortByAcos(order, Filter(s, p))
  {
    if s != [] {
      var t := s[1..];
      var st := SortByAcos(order, t);
      assert s == [s[0]] + t;
      SortCons(order, s[0], t);
      SortCommutesWithFilter(order, t, p);
      FilterInsert(order, s[0], st, p);
      FilterCons(s[0], t, p);
      if p(s[0]) {
        SortCons(order, s[0], Filter(t, p));
      } else {
        assert Filter(s, p) == Filter(t, p) by {
          assert [] + Filter(t, p) == Filter(t, p);
        }
      }
    }
  }

  /** Sorting a list with a row in front inserts that row into the sorted rest. */
  lemma SortCons(order: SortOrder, x: Campaign, t: seq<Campaign>)
    ensures SortByAcos(order, [x] + t) == Insert(order, x, SortByAcos(order, t))
  {
    assert ([x] + t)[0] == x && ([x] + t)[1..] == t;
  }

  /** The test `c => c.acos === k`. */
  function AcosIs(k: real): Campaign -> bool
  {
    (c: Campaign) => c.acos == k
  }

  /** A list whose rows all share one acos is already in table order. */
  lemma {:induction false} SortKeepsTies(order: SortOrder, s: seq<Campaign>, k: real)
    requires forall i :: 0 <= i < |s| ==> s[i].acos == k
    ensures SortByAcos(order, s) == s
  {
    if s != [] {
      SortKeepsTies(order, s[1..], k);
    }
  }

  /**
   * Stability: the rows with any given acos appear in the table in the order
   * they have in the list.
   */
  lemma SortIsStable(order: SortOrder, s: seq<Campaign>, k: real)
    ensures Filter(SortByAcos(order, s), AcosIs(k)) == Filter(s, AcosIs(k))
  {
    var ties := Filter(s, AcosIs(k));
    SortCommutesWithFilter(order, s, AcosIs(k));
    forall i | 0 <= i < |ties| ensures ties[i].acos == k {
      assert ties[i] in ties;
    }
    SortKeepsTies(order, ties, k);
  }

  /**
   * Deleting a campaign removes its row from the table and leaves the
   * other rows in the order they were shown.
   */
  lemma SortAfterDelete(order: SortOrder, s: seq<Campaign>, id: string)
    ensures SortByAcos(order, RemoveId(s, CampaignId, id))
         == RemoveId(SortByAcos(order, s), CampaignId, id)
  {
    SortCommutesWithFilter(order, s, KeyIsNot(CampaignId, id));
  }

  // ---------------------------------------------------------------------
  // The products list: filter by category, then `slice(0, visibleCount)`
  // ---------------------------------------------------------------------

  /** The test `p => p.category === category`. */
  function InCategory(category: string): Product -> bool
  {
    (p: Product) => p.category == category
  }

  /** The products the category filter lets through, before truncation. */
  function CategoryMatches(ps: seq<Product>, category: string): (r: seq<Product>)
    ensures category != AllCategories ==> forall x :: x in r <==> x in ps && x.category == category
    ensures category == AllCategories ==> r == ps
  {
    if category == AllCategories then ps else Filter(ps, InCategory(category))
  }

  /** `filteredProducts`: the first `count` products of the selected category. */
  function VisibleProducts(ps: seq<Product>, category: string, count: nat): (r: seq<Product>)
    ensures r <= CategoryMatches(ps, category)
    ensures |r| == if count < |CategoryMatches(ps, category)| then count else |CategoryMatches(ps, category)|
    ensures category != AllCategories ==> forall i :: 0 <= i < |r| ==> r[i].category == category
  {
    var r := Take(CategoryMatches(ps, category), count);
    assert forall i :: 0 <= i < |r| ==> r[i] in CategoryMatches(ps, category);
    r
  }

  /**
   * Truncation comes after filtering: a product of the selected category is
   * shown at its rank among the matching products, however many products of
   * other categories come before it, as long as that rank is below `count`.
   */
  lemma MatchShownAtRank(ps: seq<Product>, category: string, count: nat, k: nat)
    requires k < |ps| && category != AllCategories && ps[k].category == category
    ensures var rank := |Filter(ps[..k], InCategory(category))|;
            var r := VisibleProducts(ps, category, count);
            (rank < count <==> rank < |r|) && (rank < count ==> r[rank] == ps[k])
  {
    var p := InCategory(category);
    var before := Filter(ps[..k], p);
    assert ps == ps[..k] + ([ps[k]] + ps[k + 1..]);
    FilterAppend(ps[..k], [ps[k]] + ps[k + 1..], p);
    FilterCons(ps[k], ps[k + 1..], p);
    assert Filter(ps, p) == before + ([ps[k]] + Filter(ps[k + 1..], p));
    assert Filter(ps, p)[|before|] == ps[k];
  }

  /** `totalFilteredSpend`: the spend summed over exactly the visible products. */
  function TotalVisibleSpend(ps: seq<Product>, category: string, count: nat): (total: real)
    ensures NonNegativeSpends(ps) ==> 0.0 <= total <= SpendTotal(ps)
  {
    var matches := CategoryMatches(ps, category);
    var r := VisibleProducts(ps, category, count);
    assert NonNegativeSpends(ps) ==> SpendTotal(r) <= SpendTotal(ps) by {
      if NonNegativeSpends(ps) {
        if category != AllCategories {
          FilterSpendAtMost(ps, InCategory(category));
        }
        assert NonNegativeSpends(matches) by {
          forall i | 0 <= i < |matches| ensures matches[i].spend >= 0.0 {
            assert matches[i] in ps;
          }
        }
        PrefixSpendAtMost(matches, count);
      }
    }
    SpendTotal(r)
  }

  /** A category with no products shows an empty list and a zero total. */
  lemma NoMatchShowsNothing(ps: seq<Product>, category: string, count: nat)
    requires category != AllCategories
    requires forall i :: 0 <= i < |ps| ==> ps[i].category != category
    ensures VisibleProducts(ps, category, count) == []
    ensures TotalVisibleSpend(ps, category, count) == 0.0
  {
    FilterDropsAll(ps, InCategory(category));
  }
}
