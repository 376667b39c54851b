/** What the product listings (the home page and the category page) share:
    the request parameters, the page arithmetic for pages of fifteen, and the
    shapes of the list responses. */
module Listing {
  import opened Common
  import opened Cart

  /** The server's page size. */
  const PageSize: int := 15

  /** The query string sent to `/api/products/`. `page` is always sent. */
  datatype Params = Params(category: Option<string>, page: int, ordering: Option<string>)

  /** The parameters for a listing request: `price_asc` sorts by `price`,
      `price_desc` by `-price`, and every other sort value sends no ordering. */
  function ProductQuery(category: Option<string>, page: int, sortBy: string): (p: Params)
    ensures p.category == category && p.page == page
    ensures sortBy == "price_asc" ==> p.ordering == Some("price")
    ensures sortBy == "price_desc" ==> p.ordering == Some("-price")
    ensures sortBy != "price_asc" && sortBy != "price_desc" ==> p.ordering.None?
  {
    Params(category, page,
      if sortBy == "price_asc" then Some("price")
      else if sortBy == "price_desc" then Some("-price")
      else None)
  }

  /** Two sort values that send the same ordering key are the same choice. */
  lemma OrderingIdentifiesSort(a: string, b: string, category: Option<string>, page: int)
    requires ProductQuery(category, page, a).ordering == ProductQuery(category, page, b).ordering
    requires ProductQuery(category, page, a).ordering.Some?
    ensures a == b
  {
    assert "price" != "-price";
  }

  /** `Math.ceil(count / 15)`: the least number of pages of fifteen that hold
      `count` products. */
  function TotalPages(count: int): (n: int)
    ensures (n - 1) * PageSize < count <= n * PageSize
    ensures count >= 0 ==> n >= 0
    ensures count > 0 ==> n >= 1
  {
    (count + PageSize - 1) / PageSize
  }

  /** The ceiling is unique: any page count with the same property is it. */
  lemma TotalPagesUnique(count: int, n: int)
    requires (n - 1) * PageSize < count <= n * PageSize
    ensures n == TotalPages(count)
  {
  }

  /** The "Showing a - b of n products" line: only shown for a positive count. */
  function ShowingRange(page: int, totalCount: int): Option<(int, int)> {
    if totalCount > 0 then Some(((page - 1) * PageSize + 1, Min(page * PageSize, totalCount)))
    else None
  }

  /** On every page that exists the range is a non-empty stretch of at most
      fifteen products inside 1..n; every page but the last is full, the last
      ends at n, and each page starts right after the previous one ends. */
  lemma ShowingRangeTiles(page: int, totalCount: int)
    requires totalCount > 0 && 1 <= page <= TotalPages(totalCount)
    ensures var r := ShowingRange(page, totalCount);
      r.Some? && 1 <= r.value.0 <= r.value.1 <= totalCount &&
      r.value.1 - r.value.0 + 1 <= PageSize
    ensures page < TotalPages(totalCount) ==>
      ShowingRange(page, totalCount).value.1 - ShowingRange(page, totalCount).value.0 + 1 == PageSize &&
      ShowingRange(page + 1, totalCount).value.0 == ShowingRange(page, totalCount).value.1 + 1
    ensures page == TotalPages(totalCount) ==> ShowingRange(page, totalCount).value.1 == totalCount
    ensures page == 1 ==> ShowingRange(page, totalCount).value.0 == 1
  {
    var n := TotalPages(totalCount);
    assert (page - 1) * PageSize <= (n - 1) * PageSize;
    if page < n {
      assert page * PageSize <= (n - 1) * PageSize;
    } else {
      assert page * PageSize == n * PageSize;
    }
  }

  /** A list response from `/api/products/`: a paginated body with `results`
      and `count`, a bare array, or anything else. */
  datatype ListBody = Paged(results: seq<Product>, count: int) | Plain(items: seq<Product>) | NotAList

  /** What a listing shows after a successful response. */
  datatype ListState = ListState(products: seq<Product>, totalPages: int, totalCount: int)

  /** A paginated body gives its results, ceil(count/15) pages and its count;
      a bare array is one page holding all of it; anything else is an empty
      single page. */
  function ListStateOf(body: ListBody): ListState {
    match body
    case Paged(results, count) => ListState(results, TotalPages(count), count)
    case Plain(items) => ListState(items, 1, |items|)
    case NotAList => ListState([], 1, 0)
  }
}
