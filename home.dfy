/** The home page's product listing: sort selector, page state and the
    handling of the products response. */
module Home {
  import opened Common
  import opened Cart
  import opened Listing

  class HomePage {
    var products: seq<Product>
    var sortBy: string
    var currentPage: int
    var totalPages: int
    var totalCount: int
    var pageLoading: bool

    constructor ()
      ensures products == [] && sortBy == "default" && currentPage == 1
      ensures totalPages == 1 && totalCount == 0 && !pageLoading
    {
      products, sortBy, currentPage := [], "default", 1;
      totalPages, totalCount, pageLoading := 1, 0, false;
    }

    /** The selector's `onChange`, followed by the effect that runs when
        `sortBy` changed: back to page 1. */
    method SelectSort(value: string)
      modifies this`sortBy, this`currentPage
      ensures sortBy == value
      ensures currentPage == if value != old(sortBy) then 1 else old(currentPage)
    {
      if value != sortBy {
        sortBy := value;
        currentPage := 1;
      }
    }

    /** `handlePageChange` */
    method ChangePage(page: int)
      modifies this`currentPage
      ensures currentPage == page
    {
      currentPage := page;
    }

    /** The first half of `loadProducts`: the loading flag goes up and the
        request parameters are built. */
    method BeginLoad() returns (params: Params)
      modifies this`pageLoading
      ensures pageLoading
      ensures params == ProductQuery(None, currentPage, sortBy)
    {
      pageLoading := true;
      params := Params(None, currentPage, None);
      if sortBy == "price_asc" {
        params := params.(ordering := Some("price"));
      } else if sortBy == "price_desc" {
        params := params.(ordering := Some("-price"));
      }
    }

    /** The second half of `loadProducts`: the awaited response is applied
        and the loading flag comes down. A failed request only empties the
        list; the page count and the total are kept. */
    method FinishLoad(response: Fetch<ListBody>)
      modifies this`products, this`totalPages, this`totalCount, this`pageLoading
      ensures !pageLoading
      ensures response.Ok? && response.body.Paged? ==>
        products == response.body.results &&
        totalPages == TotalPages(response.body.count) && totalCount == response.body.count
      ensures response.Ok? && response.body.Plain? ==>
        products == response.body.items && totalPages == 1 && totalCount == |response.body.items|
      ensures response.Ok? && response.body.NotAList? ==>
        products == [] && totalPages == 1 && totalCount == 0
      ensures response.Failed? ==>
        products == [] && totalPages == old(totalPages) && totalCount == old(totalCount)
    {
      match response {
        case Ok(body) =>
          var s := ListStateOf(body);
          products := s.products;
          totalPages := s.totalPages;
          totalCount := s.totalCount;
        case Failed =>
          products := [];
      }
      pageLoading := false;
    }

    /** The "Showing a - b of n products" line for the current state. */
    function Showing(): Option<(int, int)>
      reads this
    {
      ShowingRange(currentPage, totalCount)
    }
  }
}
