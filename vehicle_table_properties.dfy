/** What the vehicle table's list logic guarantees: which rows the search
    keeps, how the sort orders them, that the pages split the sorted list,
    how the page buttons move, and which behaviour is named as the main
    improvement. */
module VehicleTableProperties {
  import opened Vehicle
  import opened Sorting
  import opened Calculations
  import opened VehicleTable

  // ---------------------------------------------------------------------
  // Search

  /** `sub` occurs in `s` starting at position `i`. */
  predicate OccursAt(s: string, sub: string, i: int) {
    0 <= i <= |s| - |sub| && s[i..i + |sub|] == sub
  }

  /** `includes` holds exactly when `sub` is a contiguous piece of `s`. */
  lemma {:induction false} IncludesIff(s: string, sub: string)
    ensures Includes(s, sub) <==> exists i :: OccursAt(s, sub, i)
    decreases |s|
  {
    if |s| < |sub| {
    } else if s[..|sub|] == sub {
      assert OccursAt(s, sub, 0);
    } else {
      IncludesIff(s[1..], sub);
      if exists i :: OccursAt(s, sub, i) {
        var i :| OccursAt(s, sub, i);
        assert i != 0;
        assert s[1..][i - 1..i - 1 + |sub|] == s[i..i + |sub|];
        assert OccursAt(s[1..], sub, i - 1);
      }
      if exists i :: OccursAt(s[1..], sub, i) {
        var i :| OccursAt(s[1..], sub, i);
        assert s[1..][i..i + |sub|] == s[i + 1..i + 1 + |sub|];
        assert OccursAt(s, sub, i + 1);
      }
    }
  }

  /** The empty string is part of every plate. */
  lemma IncludesEmpty(s: string)
    ensures Includes(s, "")
  {
    assert s[..0] == "";
  }

  /** An empty search box shows every vehicle, in order. */
  lemma {:induction false} EmptySearchKeepsAll(vs: seq<VehicleAnalysis>)
    ensures FilterBySearch(vs, "") == vs
  {
    if vs != [] {
      IncludesEmpty(Lower(vs[0].data.plate));
      assert Lower("") == "";
      assert MatchesSearch(vs[0], "");
      EmptySearchKeepsAll(vs[1..]);
      FilterCons(vs, a => MatchesSearch(a, ""));
    }
  }

  /** The search keeps exactly the matching vehicles, each as often as it
      occurs, and keeps their order: filtering a concatenation filters each
      part. */
  lemma FilterBySearchSpec(vs: seq<VehicleAnalysis>, search: string)
    ensures var r := FilterBySearch(vs, search);
      && (forall i :: 0 <= i < |r| ==> MatchesSearch(r[i], search))
      && multiset(r) <= multiset(vs)
      && (forall i :: 0 <= i < |vs| && MatchesSearch(vs[i], search) ==> multiset(r)[vs[i]] == multiset(vs)[vs[i]])
    ensures forall a, b :: FilterBySearch(a + b, search) == FilterBySearch(a, search) + FilterBySearch(b, search)
  {
    forall a, b ensures FilterBySearch(a + b, search) == FilterBySearch(a, search) + FilterBySearch(b, search) {
      FilterConcat(a, b, x => MatchesSearch(x, search));
    }
  }

  /** Lower-casing twice is lower-casing once. */
  lemma LowerIdempotent(s: string)
    ensures Lower(Lower(s)) == Lower(s)
  {
  }

  /** Text without upper-case letters, such as any output of `Lower`, is
      left as it is. */
  lemma LowerKeepsLowerCase(s: string)
    requires forall i :: 0 <= i < |s| ==> !('A' <= s[i] <= 'Z')
    ensures Lower(s) == s
  {
  }

  /** Case does not matter in the search box. */
  lemma SearchIgnoresCase(a: VehicleAnalysis, search: string)
    ensures MatchesSearch(a, Lower(search)) == MatchesSearch(a, search)
  {
    LowerIdempotent(search);
  }

  // ---------------------------------------------------------------------
  // Sort

  /** Vehicles with equal values in the sort column keep their order. */
  lemma SortVehiclesStable(s: seq<VehicleAnalysis>, column: SortColumn, order: SortOrder)
    ensures StableWrt(SortVehicles(s, column, order), s, ColumnKey(column))
  {
    if order == Asc {
      SortAscStable(s, ColumnKey(column));
    } else {
      SortDescStable(s, ColumnKey(column));
    }
  }

  /** Clicking the same header twice restores the order; clicking another
      header and then this one again gives this one descending. */
  lemma ToggleTwice(sortBy: SortColumn, sortOrder: SortOrder, column: SortColumn)
    ensures var (b, o) := Toggle(sortBy, sortOrder, column);
      Toggle(b, o, column) == if sortBy == column then (sortBy, sortOrder) else (column, Asc)
  {
  }

  // ---------------------------------------------------------------------
  // Pages

  /** Pages 1 to `k` are the first `10 k` rows. */
  lemma {:induction false} PagesPrefix<T>(s: seq<T>, k: nat)
    ensures Pages(s, k) == s[..Min(k * ItemsPerPage, |s|)]
  {
    if k > 0 {
      PagesPrefix(s, k - 1);
      var p := PageSlice(s, k);
      var lo := Min((k - 1) * ItemsPerPage, |s|);
      var hi := Min(k * ItemsPerPage, |s|);
      assert p == s[lo..hi];
      assert s[..hi] == s[..lo] + s[lo..hi];
    }
  }

  /** The `totalPages` pages together are the whole sorted list: every row
      is on exactly one page, in order. */
  lemma PagesCover<T>(s: seq<T>)
    ensures Pages(s, PageCount(|s|)) == s
  {
    PagesPrefix(s, PageCount(|s|));
  }

  /** A page past the last one is empty (the search can shrink the list
      under the current page, which is then shown empty). */
  lemma PageBeyondLast<T>(s: seq<T>, page: int)
    requires page > PageCount(|s|)
    ensures PageSlice(s, page) == []
  {
  }

  /** Row `i` of page `page` is numbered `(page - 1) * 10 + i + 1` and is that
      row of the sorted list. */
  lemma RowNumber<T>(s: seq<T>, page: int, i: nat)
    requires 1 <= page && i < |PageSlice(s, page)|
    ensures var n := (page - 1) * ItemsPerPage + i + 1;
      1 <= n <= |s| && PageSlice(s, page)[i] == s[n - 1]
  {
  }

  // ---------------------------------------------------------------------
  // Page buttons

  /** Where the window sits: at the start while the current page is 1-3, at
      the end for the last three pages, otherwise with the current page in
      the middle. */
  lemma PageWindowPlacement(totalPages: nat, currentPage: int)
    requires totalPages > 5
    ensures var w := PageWindow(totalPages, currentPage);
      && (currentPage <= 3 ==> w[0] == 1)
      && (3 < currentPage < totalPages - 2 ==> w[2] == currentPage)
      && (currentPage >= totalPages - 2 && currentPage > 3 ==> w[4] == totalPages)
  {
  }

  /** "이전" then "다음" returns to the page, and so does the reverse, away
      from the ends. */
  lemma PreviousNextInverse(page: int, totalPages: nat)
    ensures 1 < page <= totalPages ==> NextPageOf(PreviousPageOf(page), totalPages) == page
    ensures 1 <= page < totalPages ==> PreviousPageOf(NextPageOf(page, totalPages)) == page
  {
  }

  /** With no rows to show "다음" is still enabled on page 1 and moves to
      page 0; page 0 shows nothing and "다음" stays there. */
  lemma NextPageOnEmptyTable<T>(s: seq<T>)
    requires s == []
    ensures NextPageOf(1, PageCount(|s|)) == 0
    ensures NextPageOf(0, PageCount(|s|)) == 0
    ensures PageSlice(s, 0) == []
  {
  }

  // ---------------------------------------------------------------------
  // Main improvement item

  /** The item of behaviour `b` in the table's list. */
  lemma ItemOf(v: VehicleData, b: Behavior)
    ensures BehaviorItems(v)[Position(b)] == BehaviorItem(b, Count(v, b), Weight(b))
    ensures ItemValue(BehaviorItems(v)[Position(b)]) == WeightedCount(v, b)
  {
  }

  /** "없음" exactly when no behaviour has a positive weighted value. */
  lemma MainImprovementNone(v: VehicleData)
    ensures MainImprovementOf(v) == NoImprovement <==> forall b :: WeightedCount(v, b) <= 0.0
  {
    var items := BehaviorItems(v);
    if exists i :: 0 <= i < |items| && PositiveValue(items[i]) {
      var j := FilteredSortHead(items, PositiveValue, ItemValue);
      ItemOf(v, Behaviors[j]);
    } else {
      FilterNone(items, PositiveValue);
      forall b ensures WeightedCount(v, b) <= 0.0 {
        ItemOf(v, b);
      }
    }
  }

  /** Otherwise the named behaviour has the largest weighted value, comes
      first in table order among those with that value, and is shown with
      its raw count. */
  lemma MainImprovementIsFirstMaximum(v: VehicleData)
    ensures MainImprovementOf(v).Improvement? ==>
      var b := MainImprovementOf(v).behavior;
      && MainImprovementOf(v).originalValue == Count(v, b)
      && WeightedCount(v, b) > 0.0
      && (forall b' :: WeightedCount(v, b') <= WeightedCount(v, b))
      && (forall b' :: WeightedCount(v, b') == WeightedCount(v, b) ==> Position(b) <= Position(b'))
  {
    var items := BehaviorItems(v);
    if exists i :: 0 <= i < |items| && PositiveValue(items[i]) {
      var j := FilteredSortHead(items, PositiveValue, ItemValue);
      var b := Behaviors[j];
      ItemOf(v, b);
      PositionOfIndex(j);
      forall b' ensures WeightedCount(v, b') <= WeightedCount(v, b) {
        ItemOf(v, b');
      }
      forall b' | WeightedCount(v, b') == WeightedCount(v, b) ensures Position(b) <= Position(b') {
        ItemOf(v, b');
      }
    } else {
      FilterNone(items, PositiveValue);
    }
  }

  /** Weights are positive, so a behaviour's weighted value is positive
      exactly when its count is. */
  lemma PositiveValueIsHasCount(item: BehaviorItem)
    requires item.weight > 0.0
    ensures PositiveValue(item) == HasCount(item)
  {
    if item.count > 0.0 {
      assert item.count * item.weight > 0.0;
    } else {
      assert item.count * item.weight <= 0.0;
    }
  }

  lemma {:induction false} FilterSame<T>(s: seq<T>, p: T -> bool, q: T -> bool)
    requires forall i :: 0 <= i < |s| ==> p(s[i]) == q(s[i])
    ensures Filter(s, p) == Filter(s, q)
  {
    if s != [] {
      FilterCons(s, p);
      FilterCons(s, q);
      FilterSame(s[1..], p, q);
    }
  }

  /** The table's main improvement item is the first of the detail view's
      top behaviours, and "없음" exactly when that list is empty. */
  lemma MainImprovementIsTopBehavior(v: VehicleData)
    ensures MainImprovementOf(v) == NoImprovement <==> TopBehaviors(v) == []
    ensures MainImprovementOf(v).Improvement? ==>
      MainImprovementOf(v) == Improvement(TopBehaviors(v)[0].name, TopBehaviors(v)[0].count)
  {
    var items := BehaviorItems(v);
    forall i | 0 <= i < |items| ensures PositiveValue(items[i]) == HasCount(items[i]) {
      PositiveValueIsHasCount(items[i]);
    }
    FilterSame(items, PositiveValue, HasCount);
  }
}
