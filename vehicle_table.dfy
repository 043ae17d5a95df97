/** The list logic of the vehicle table (src/components/VehicleTable.tsx):
    search filter, column sort, ten-row pages, the page-number window,
    the previous/next handlers and the "주요 개선 항목" (main improvement)
    pick. The component's React state is the class `TableState`; the
    derived lists are functions of that state. */
module VehicleTable {
  import opened Vehicle
  import opened Sorting
  import opened Calculations

  // ---------------------------------------------------------------------
  // Search (lines 12-14)

  /** `toLowerCase` on one character; only ASCII letters change: no
      upper-case letter is left, and letters stay letters. */
  function LowerChar(c: char): (d: char)
    ensures 'A' <= c <= 'Z' ==> d as int == c as int + 32
    ensures !('A' <= c <= 'Z') ==> d == c
    ensures !('A' <= d <= 'Z')
    ensures 'a' <= d <= 'z' <==> 'a' <= c <= 'z' || 'A' <= c <= 'Z'
  {
    if 'A' <= c <= 'Z' then (c as int + 32) as char else c
  }

  /** `toLowerCase` on a string, character by character. */
  function Lower(s: string): (r: string)
    ensures |r| == |s|
    ensures forall i :: 0 <= i < |s| ==> r[i] == LowerChar(s[i])
    ensures forall i :: 0 <= i < |r| ==> !('A' <= r[i] <= 'Z')
  {
    seq(|s|, i requires 0 <= i < |s| => LowerChar(s[i]))
  }

  /** `s.includes(sub)`: `sub` occurs in `s` at some position. */
  function Includes(s: string, sub: string): (r: bool)
    ensures r ==> |sub| <= |s|
    decreases |s|
  {
    if |s| < |sub| then false
    else if s[..|sub|] == sub then true
    else Includes(s[1..], sub)
  }

  /** The filter condition: the lower-cased plate contains the lower-cased
      search text. */
  predicate MatchesSearch(a: VehicleAnalysis, search: string): (m: bool)
    ensures m ==> |search| <= |a.data.plate|
  {
    Includes(Lower(a.data.plate), Lower(search))
  }

  /** `filtered`: the vehicles matching the search, in their order. */
  function FilterBySearch(vs: seq<VehicleAnalysis>, search: string): (r: seq<VehicleAnalysis>)
    ensures |r| <= |vs|
    ensures forall i :: 0 <= i < |r| ==> MatchesSearch(r[i], search)
  {
    Filter(vs, a => MatchesSearch(a, search))
  }

  // ---------------------------------------------------------------------
  // Sort (lines 7-8, 16-19)

  /** The two sortable columns. */
  datatype SortColumn = RiskScoreColumn | SavingColumn  // 위험도점수 | 절감가능금액

  datatype SortOrder = Asc | Desc

  /** The number a column sorts by. */
  function ColumnKey(column: SortColumn): VehicleAnalysis -> real {
    match column
    case RiskScoreColumn => RiskKey
    case SavingColumn => SavingKey
  }

  /** `sorted`: the stable sort of `s` by the column, ascending (comparator
      multiplier 1) or descending (multiplier -1). */
  function SortVehicles(s: seq<VehicleAnalysis>, column: SortColumn, order: SortOrder): (r: seq<VehicleAnalysis>)
    ensures |r| == |s|
    ensures multiset(r) == multiset(s)
    ensures order == Asc ==> SortedAsc(r, ColumnKey(column))
    ensures order == Desc ==> SortedDesc(r, ColumnKey(column))
  {
    if order == Asc then SortAsc(s, ColumnKey(column)) else SortDesc(s, ColumnKey(column))
  }

  /** The column and order after clicking `column`'s header (`toggleSort`):
      the current column flips its order, another one becomes current,
      descending. */
  function Toggle(sortBy: SortColumn, sortOrder: SortOrder, column: SortColumn): (r: (SortColumn, SortOrder))
    ensures r.0 == column
    ensures sortBy == column ==> r.1 != sortOrder
    ensures sortBy != column ==> r.1 == Desc
  {
    if sortBy == column then (sortBy, if sortOrder == Asc then Desc else Asc)
    else (column, Desc)
  }

  // ---------------------------------------------------------------------
  // Pages (lines 10, 21-26)

  const ItemsPerPage: nat := 10

  /** Where `Array.prototype.slice` resolves a bound: negative counts from
      the end, and the result is clamped to [0, len]. */
  function SliceBound(x: int, len: nat): (b: nat)
    ensures b <= len
    ensures 0 <= x ==> b == Min(x, len)
    ensures x < 0 ==> b == Max(len + x, 0)
  {
    if x < 0 then Max(len + x, 0) else Min(x, len)
  }

  /** `s.slice(start, end)`. */
  function JsSlice<T>(s: seq<T>, start: int, end: int): (r: seq<T>)
    ensures start <= end ==> |r| <= end - start
    ensures 0 <= start ==> forall i :: 0 <= i < |r| ==> start + i < |s| && r[i] == s[start + i]
    ensures 0 <= start <= end ==> |r| == Max(0, Min(end, |s|) - start)
  {
    var from := SliceBound(start, |s|);
    var to := SliceBound(end, |s|);
    if to <= from then [] else s[from..to]
  }

  /** `paginated`: the rows of page `page`, `sorted.slice((page - 1) * 10, page * 10)`. */
  function PageSlice<T>(s: seq<T>, page: int): (r: seq<T>)
    ensures |r| <= ItemsPerPage
    ensures page == 0 ==> r == []
    ensures 1 <= page ==> |r| == Max(0, Min(ItemsPerPage, |s| - (page - 1) * ItemsPerPage))
    ensures 1 <= page ==> forall i :: 0 <= i < |r| ==> r[i] == s[(page - 1) * ItemsPerPage + i]
  {
    JsSlice(s, (page - 1) * ItemsPerPage, page * ItemsPerPage)
  }

  /** `totalPages = Math.ceil(n / 10)`: the fewest ten-row pages holding `n` rows. */
  function PageCount(n: nat): (c: nat)
    ensures c * ItemsPerPage >= n
    ensures c == 0 || (c - 1) * ItemsPerPage < n
  {
    (n + ItemsPerPage - 1) / ItemsPerPage
  }

  /** Pages 1 to `k` one after another. */
  function Pages<T>(s: seq<T>, k: nat): seq<T> {
    if k == 0 then [] else Pages(s, k - 1) + PageSlice(s, k)
  }

  // ---------------------------------------------------------------------
  // Page buttons (lines 233, 239-250, 255, 267)

  /** The numbers on the page buttons: `Math.min(totalPages, 5)` of them,
      starting at 1, ending at the last page, or centred on the current one. */
  function PageWindow(totalPages: nat, currentPage: int): (w: seq<int>)
    ensures |w| == Min(totalPages, 5)
    ensures forall i :: 0 <= i < |w| ==> 1 <= w[i] <= totalPages
    ensures forall i :: 0 < i < |w| ==> w[i] == w[i - 1] + 1
    ensures 1 <= currentPage <= totalPages ==> currentPage in w
  {
    var first :=
      if totalPages <= 5 then 1
      else if currentPage <= 3 then 1
      else if currentPage >= totalPages - 2 then totalPages - 4
      else currentPage - 2;
    var w := seq(Min(totalPages, 5), i => first + i);
    assert 1 <= currentPage <= totalPages ==> w[currentPage - first] == currentPage;
    w
  }

  /** The page after "이전" (previous): nothing happens on page 1 (the button
      is disabled), otherwise one page back but not below 1. */
  function PreviousPageOf(page: int): (p: int)
    ensures p >= 1
    ensures page > 1 ==> p == page - 1
    ensures page <= 1 ==> p == 1
  {
    if page == 1 then page else Max(1, page - 1)
  }

  /** The page after "다음" (next): nothing happens on the last page (the
      button is disabled), otherwise one page on but never past the last. */
  function NextPageOf(page: int, totalPages: nat): (p: int)
    ensures p <= totalPages
    ensures page == totalPages ==> p == page
    ensures page < totalPages ==> p == page + 1
    ensures page > totalPages ==> p == totalPages
    ensures page >= 0 ==> p >= 0
  {
    if page == totalPages then page else Min(totalPages, page + 1)
  }

  // ---------------------------------------------------------------------
  // Main improvement item (lines 58-80, repeated at 169-191)

  /** The pick: a behaviour with its raw count, or "없음" with count 0. */
  datatype MainImprovement = NoImprovement | Improvement(behavior: Behavior, originalValue: real) {
    function Name(): string {
      match this
      case NoImprovement => "없음"
      case Improvement(b, _) => b.Label()
    }
    function OriginalValue(): real {
      match this
      case NoImprovement => 0.0
      case Improvement(_, c) => c
    }
  }

  predicate PositiveValue(item: BehaviorItem) { ItemValue(item) > 0.0 }

  /** `주요개선`: the first of the positively weighted behaviours sorted by
      weighted value, largest first; "없음" when there is none. */
  function MainImprovementOf(v: VehicleData): MainImprovement {
    var r := SortDesc(Filter(BehaviorItems(v), PositiveValue), ItemValue);
    if r == [] then NoImprovement else Improvement(r[0].name, r[0].count)
  }

  // ---------------------------------------------------------------------
  // Component state (lines 5-10, 28-35, 47, 233, 255, 267)

  class TableState {
    const vehicles: seq<VehicleAnalysis>
    var search: string
    var sortBy: SortColumn
    var sortOrder: SortOrder
    var currentPage: int

    /** The page number is never negative: it starts at 1, and the handlers
        move it to at least 0. */
    predicate Valid()
      reads this
    {
      currentPage >= 0
    }

    /** The initial state: empty search, risk score descending, page 1. */
    constructor(vehicles: seq<VehicleAnalysis>)
      ensures this.vehicles == vehicles
      ensures search == "" && sortBy == RiskScoreColumn && sortOrder == Desc && currentPage == 1
      ensures Valid()
    {
      this.vehicles := vehicles;
      search := "";
      sortBy := RiskScoreColumn;
      sortOrder := Desc;
      currentPage := 1;
    }

    function Filtered(): (r: seq<VehicleAnalysis>)
      reads this
      ensures |r| <= |vehicles|
    {
      FilterBySearch(vehicles, search)
    }

    function Sorted(): (r: seq<VehicleAnalysis>)
      reads this
      ensures multiset(r) == multiset(Filtered())
    {
      SortVehicles(Filtered(), sortBy, sortOrder)
    }

    function Paginated(): (r: seq<VehicleAnalysis>)
      reads this
      ensures |r| <= ItemsPerPage
    {
      PageSlice(Sorted(), currentPage)
    }

    function TotalPages(): (n: nat)
      reads this
      ensures n * ItemsPerPage >= |Sorted()|
    {
      PageCount(|Sorted()|)
    }

    /** Typing into the search box; the page is not reset. */
    method SetSearch(text: string)
      requires Valid()
      modifies this
      ensures search == text
      ensures sortBy == old(sortBy) && sortOrder == old(sortOrder) && currentPage == old(currentPage)
      ensures Valid()
    {
      search := text;
    }

    /** `toggleSort`: the current column flips its order, another column
        becomes current in descending order. */
    method ToggleSort(column: SortColumn)
      requires Valid()
      modifies this
      ensures (sortBy, sortOrder) == Toggle(old(sortBy), old(sortOrder), column)
      ensures search == old(search) && currentPage == old(currentPage)
      ensures Valid()
    {
      if sortBy == column {
        sortOrder := if sortOrder == Asc then Desc else Asc;
      } else {
        sortBy := column;
        sortOrder := Desc;
      }
    }

    /** The "이전" button. */
    method PreviousPage()
      requires Valid()
      modifies this
      ensures currentPage == PreviousPageOf(old(currentPage))
      ensures currentPage >= 1
      ensures search == old(search) && sortBy == old(sortBy) && sortOrder == old(sortOrder)
      ensures Valid()
    {
      if currentPage != 1 {
        currentPage := Max(1, currentPage - 1);
      }
    }

    /** The "다음" button. */
    method NextPage()
      requires Valid()
      modifies this
      ensures currentPage == NextPageOf(old(currentPage), TotalPages())
      ensures currentPage <= TotalPages()
      ensures old(currentPage) == old(TotalPages()) ==> currentPage == old(currentPage)
      ensures search == old(search) && sortBy == old(sortBy) && sortOrder == old(sortOrder)
      ensures Valid()
    {
      var total := TotalPages();
      if currentPage != total {
        currentPage := Min(total, currentPage + 1);
      }
    }

    /** A page-number button: the `i`-th of the window. */
    method SelectPage(i: nat)
      requires Valid()
      requires i < |PageWindow(TotalPages(), currentPage)|
      modifies this
      ensures currentPage == old(PageWindow(TotalPages(), currentPage)[i])
      ensures 1 <= currentPage <= TotalPages()
      ensures search == old(search) && sortBy == old(sortBy) && sortOrder == old(sortOrder)
      ensures Valid()
    {
      var total := TotalPages();
      var window := PageWindow(total, currentPage);
      assert 1 <= window[i] <= total;
      currentPage := window[i];
      assert TotalPages() == total;
    }
  }
}
