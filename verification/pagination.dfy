/** Offset pagination of the `/items` endpoint (`get_items`): the fixed
    catalogue of one hundred items, the page/size query checks, the
    "Page not found" error and the page slice with its page count. */
module Pagination {
  import opened Common

  // ---------------------------------------------------------------------
  // The catalogue

  /** An item of the catalogue. */
  datatype Item = Item(id: int, name: string)

  function DigitChar(d: nat): (c: char)
    requires d < 10
    ensures IsDigit(c) && (c as int) - ('0' as int) == d
  {
    (('0' as int) + d) as char
  }

  /** The decimal text of a natural number, as string formatting writes it. */
  function Decimal(n: nat): (r: string)
    ensures |r| >= 1 && (|r| > 1 ==> r[0] != '0')
    ensures forall k :: 0 <= k < |r| ==> IsDigit(r[k])
    decreases n
  {
    if n < 10 then [DigitChar(n)] else Decimal(n / 10) + [DigitChar(n % 10)]
  }

  /** The value of a string of decimal digits (the inverse of `Decimal`). */
  function DecimalValue(s: string): nat
    requires forall k :: 0 <= k < |s| ==> IsDigit(s[k])
    decreases |s|
  {
    if s == [] then 0
    else
      assert IsDigit(s[|s| - 1]);
      DecimalValue(s[..|s| - 1]) * 10 + ((s[|s| - 1] as int) - ('0' as int))
  }

  lemma {:induction false} DecimalRoundTrip(n: nat)
    ensures DecimalValue(Decimal(n)) == n
    decreases n
  {
    if n >= 10 {
      var s := Decimal(n);
      assert s[..|s| - 1] == Decimal(n / 10);
      DecimalRoundTrip(n / 10);
    }
  }

  /** `f"Item {i}"`. */
  function ItemName(i: nat): string
  {
    "Item " + Decimal(i)
  }

  /** Two catalogue items never share a name. */
  lemma ItemNameInjective(i: nat, j: nat)
    ensures ItemName(i) == ItemName(j) ==> i == j
  {
    if ItemName(i) == ItemName(j) {
      assert Decimal(i) == ItemName(i)[5..];
      assert Decimal(j) == ItemName(j)[5..];
      DecimalRoundTrip(i);
      DecimalRoundTrip(j);
    }
  }

  const ITEM_COUNT: nat := 100

  /** `ITEMS`: the items with ids 1 to 100, in order. */
  function Items(): (r: seq<Item>)
    ensures |r| == ITEM_COUNT
    ensures forall k :: 0 <= k < |r| ==> r[k].id == k + 1
    ensures forall i, j :: 0 <= i < |r| && 0 <= j < |r| && r[i].name == r[j].name ==> i == j
  {
    var r := seq(ITEM_COUNT, (k: nat) => Item(k + 1, ItemName(k + 1)));
    assert forall i, j :: 0 <= i < |r| && 0 <= j < |r| && r[i].name == r[j].name ==> i == j by {
      forall i, j | 0 <= i < |r| && 0 <= j < |r| && r[i].name == r[j].name ensures i == j {
        ItemNameInjective(i + 1, j + 1);
      }
    }
    r
  }

  // ---------------------------------------------------------------------
  // The query parameters

  const DEFAULT_PAGE: int := 1
  const DEFAULT_SIZE: int := 10
  const MAX_SIZE: int := 50

  predicate ValidQuery(page: int, size: int)
  {
    page >= 1 && 1 <= size <= MAX_SIZE
  }

  /** The query-parameter errors (`page` must be >= 1, `size` in 1..50),
      every violation reported, in parameter order. */
  function QueryErrors(page: int, size: int): (errs: seq<FieldError>)
    ensures errs == [] <==> ValidQuery(page, size)
    ensures Locs(errs) == (if page < 1 then {"page"} else {}) + (if ValidQuery(1, size) then {} else {"size"})
  {
    var p := if page < 1 then [FieldError("page", GreaterThanEqual)] else [];
    var s := if size < 1 then [FieldError("size", GreaterThanEqual)]
             else if size > MAX_SIZE then [FieldError("size", LessThanEqual)]
             else [];
    LocsAppend(p, s);
    assert |p| == 1 ==> Locs(p) == {"page"} by { if |p| == 1 { LocsSingle(p[0]); } }
    assert |s| == 1 ==> Locs(s) == {"size"} by { if |s| == 1 { LocsSingle(s[0]); } }
    p + s
  }

  // ---------------------------------------------------------------------
  // The endpoint

  datatype PaginatedResponse<T> =
    PaginatedResponse(items: seq<T>, total: int, page: int, size: int, totalPages: int)

  datatype PageError =
    | QueryRejected(errors: seq<FieldError>)  // the request never reaches the handler
    | PageNotFound                            // "Page not found"

  /** `xs[i:j]` for non-negative bounds: both ends are clamped to the length. */
  function PySlice<T>(xs: seq<T>, i: nat, j: nat): (r: seq<T>)
    ensures |r| == if Min(j, |xs|) <= Min(i, |xs|) then 0 else Min(j, |xs|) - Min(i, |xs|)
    ensures forall k :: 0 <= k < |r| ==> r[k] == xs[i + k]
  {
    if Min(j, |xs|) <= Min(i, |xs|) then [] else xs[i..Min(j, |xs|)]
  }

  /** Python's `//` on a non-negative numerator and a positive divisor. */
  function FloorDiv(a: nat, b: int): nat
    requires b > 0
  {
    a / b
  }

  /** The number of pages of `size` items needed for `n` items. */
  function TotalPages(n: nat, size: int): nat
    requires size >= 1
  {
    FloorDiv(n + size - 1, size)
  }

  /** The index of a page's first item. */
  function PageStart(page: int, size: int): int
  {
    (page - 1) * size
  }

  /** `get_items` over an arbitrary backing list `xs`. */
  function Paginate<T>(xs: seq<T>, page: int, size: int): (r: Result<PaginatedResponse<T>, PageError>)
    ensures !ValidQuery(page, size) ==> r == Err(QueryRejected(QueryErrors(page, size)))
    ensures ValidQuery(page, size) ==> (r.Err? <==> (page - 1) * size >= |xs|)
    ensures ValidQuery(page, size) && r.Err? ==> r.error == PageNotFound
    ensures r.Ok? ==>
      && 0 <= PageStart(page, size) < |xs|
      && r.value.items == xs[PageStart(page, size)..Min(PageStart(page, size) + size, |xs|)]
      && |r.value.items| == Min(size, |xs| - PageStart(page, size))
      && 1 <= |r.value.items| <= size
      && r.value.total == |xs|
      && r.value.page == page && r.value.size == size
      && r.value.totalPages == TotalPages(|xs|, size)
  {
    if !ValidQuery(page, size) then Err(QueryRejected(QueryErrors(page, size)))
    else
      var total := |xs|;
      var start := PageStart(page, size);
      var end := start + size;
      if start >= total then Err(PageNotFound)
      else
        Ok(PaginatedResponse(PySlice(xs, start, end), total, page, size, TotalPages(total, size)))
  }

  /** `GET /items?page=..&size=..`. */
  function GetItems(page: int, size: int): (r: Result<PaginatedResponse<Item>, PageError>)
    ensures r.Ok? ==>
      && r.value.total == ITEM_COUNT
      && 0 <= PageStart(page, size) && |r.value.items| >= 1
      && (forall k :: 0 <= k < |r.value.items| ==>
            r.value.items[k] == Item(PageStart(page, size) + k + 1, ItemName(PageStart(page, size) + k + 1)))
      && r.value.items[|r.value.items| - 1].id == Min(PageStart(page, size) + size, ITEM_COUNT)
  {
    Paginate(Items(), page, size)
  }

  /** The request with either parameter left out: the defaults fill in. */
  function GetItemsWithDefaults(page: Option<int>, size: Option<int>): (r: Result<PaginatedResponse<Item>, PageError>)
    ensures page.None? && size.None? ==>
      r.Ok? && r.value.page == 1 && r.value.size == 10 && r.value.totalPages == 10
      && |r.value.items| == 10 && r.value.items[0].id == 1
    ensures var pg, sz := (if page.Some? then page.value else DEFAULT_PAGE), (if size.Some? then size.value else DEFAULT_SIZE);
      && (!ValidQuery(pg, sz) ==> r == Err(QueryRejected(QueryErrors(pg, sz))))
      && (ValidQuery(pg, sz) ==> (r.Ok? <==> (pg - 1) * sz < ITEM_COUNT))
      && (r.Ok? ==> r.value.page == pg && r.value.size == sz && r.value.total == ITEM_COUNT)
  {
    GetItems(if page.Some? then page.value else DEFAULT_PAGE,
             if size.Some? then size.value else DEFAULT_SIZE)
  }

  // ---------------------------------------------------------------------
  // Properties of the page count and of the pages

  /** `(n + size - 1) // size` is the ceiling of `n / size`: the fewest pages
      of `size` items that hold `n` items. */
  lemma TotalPagesIsCeiling(n: nat, size: int)
    requires size >= 1
    ensures TotalPages(n, size) * size >= n
    ensures n == 0 <==> TotalPages(n, size) == 0
    ensures n > 0 ==> (TotalPages(n, size) - 1) * size < n
  {
    var q, r := (n + size - 1) / size, (n + size - 1) % size;
    assert n + size - 1 == q * size + r && 0 <= r < size;
    assert (q - 1) * size == q * size - size;
  }

  lemma MulMonotone(a: int, b: int, c: int)
    requires a <= b && c >= 0
    ensures a * c <= b * c
  {
    assert b * c - a * c == (b - a) * c;
  }

  /** A page is found exactly when its number is at most the page count. */
  lemma PageFoundIffWithinTotalPages(n: nat, page: int, size: int)
    requires ValidQuery(page, size)
    ensures (page - 1) * size < n <==> page <= TotalPages(n, size)
  {
    var tp := TotalPages(n, size);
    TotalPagesIsCeiling(n, size);
    if page <= tp {
      MulMonotone(page - 1, tp - 1, size);
    } else {
      MulMonotone(tp, page - 1, size);
    }
  }

  /** Every page before the last is full; the last page holds what is left. */
  lemma OnlyLastPageShort<T>(xs: seq<T>, page: int, size: int)
    requires ValidQuery(page, size) && (page - 1) * size < |xs|
    ensures Paginate(xs, page, size).Ok?
    ensures var r := Paginate(xs, page, size).value;
      && 1 <= page <= r.totalPages
      && (page < r.totalPages ==> |r.items| == size)
      && (page == r.totalPages ==> |r.items| == |xs| - (r.totalPages - 1) * size)
  {
    var n, tp := |xs|, TotalPages(|xs|, size);
    PageFoundIffWithinTotalPages(n, page, size);
    TotalPagesIsCeiling(n, size);
    if page < tp {
      MulMonotone(page, tp - 1, size);
      assert page * size == (page - 1) * size + size;
    }
  }

  /** The items of pages `page`, `page + 1`, ... up to the first page not found. */
  function PagesFrom<T>(xs: seq<T>, page: int, size: int): seq<T>
    requires ValidQuery(page, size)
    decreases |xs| - (page - 1) * size
  {
    match Paginate(xs, page, size)
    case Err(_) => []
    case Ok(r) =>
      assert page * size == (page - 1) * size + size;
      r.items + PagesFrom(xs, page + 1, size)
  }

  /** Reading the pages from `page` on yields the list from the page's start:
      nothing is skipped and nothing is repeated. */
  lemma {:induction false} PagesFromIsSuffix<T>(xs: seq<T>, page: int, size: int)
    requires ValidQuery(page, size)
    ensures PagesFrom(xs, page, size) == xs[Min((page - 1) * size, |xs|)..]
    decreases |xs| - (page - 1) * size
  {
    var start := (page - 1) * size;
    assert page * size == start + size;
    if start < |xs| {
      PagesFromIsSuffix(xs, page + 1, size);
      assert xs[start..] == xs[start..Min(start + size, |xs|)] + xs[Min(start + size, |xs|)..];
    }
  }

  /** The pages of any size, read in order from page 1, are the whole list. */
  lemma PagesPartitionItems<T>(xs: seq<T>, size: int)
    requires 1 <= size <= MAX_SIZE
    ensures PagesFrom(xs, 1, size) == xs
  {
    PagesFromIsSuffix(xs, 1, size);
  }
}
