/** The category page: find the category by its slug, then list its products. */
module CategoryPage {
  import opened Common
  import opened Cart
  import opened Listing

  datatype Category = Category(id: int, name: string, slug: string)

  /** The body of `/api/categories/`: paginated (`results`), a bare array, or
      anything else. */
  datatype CategoryBody = PagedCategories(results: seq<Category>) | PlainCategories(items: seq<Category>) | NoCategories

  /** `data.results || data`, kept only when it is an array. */
  function CategoriesOf(body: CategoryBody): seq<Category> {
    match body
    case PagedCategories(results) => results
    case PlainCategories(items) => items
    case NoCategories => []
  }

  /** The position of the first category with that slug, or `|categories|`. */
  function SlugIndex(categories: seq<Category>, slug: string): (k: nat)
    ensures k <= |categories|
    ensures forall j :: 0 <= j < k ==> categories[j].slug != slug
    ensures k < |categories| ==> categories[k].slug == slug
  {
    if categories == [] then 0
    else if categories[0].slug == slug then 0
    else 1 + SlugIndex(categories[1..], slug)
  }

  /** `categories.find(c => c.slug === slug)`: the first category with that slug. */
  function FindBySlug(categories: seq<Category>, slug: string): (r: Option<Category>)
    ensures r.None? <==> forall i :: 0 <= i < |categories| ==> categories[i].slug != slug
    ensures r.Some? ==> r.value.slug == slug
    ensures r.Some? ==>
      exists k :: 0 <= k < |categories| && categories[k] == r.value &&
                  (forall j :: 0 <= j < k ==> categories[j].slug != slug)
  {
    var k := SlugIndex(categories, slug);
    if k < |categories| then Some(categories[k]) else None
  }

  class CategoryView {
    var slug: string
    var category: Option<Category>
    var products: seq<Product>
    var loading: bool
    var sortBy: string
    var currentPage: int
    var totalPages: int
    var totalCount: int

    constructor (routeSlug: string)
      ensures slug == routeSlug && category.None? && products == [] && loading
      ensures sortBy == "default" && currentPage == 1 && totalPages == 1 && totalCount == 0
    {
      slug, category, products, loading := routeSlug, None, [], true;
      sortBy, currentPage, totalPages, totalCount := "default", 1, 1, 0;
    }

    /** A new route slug; the reset effect puts the page back to 1 when it changed. */
    method ChangeSlug(newSlug: string)
      modifies this`slug, this`currentPage
      ensures slug == newSlug
      ensures currentPage == if newSlug != old(slug) then 1 else old(currentPage)
    {
      if newSlug != slug {
        slug := newSlug;
        currentPage := 1;
      }
    }

    /** The sort selector; the same reset effect as for the slug. */
    method SelectSort(value: string)
      modifies this`sortBy, this`currentPage
      ensures sortBy == value
      ensures currentPage == if value != old(sortBy) then 1 else old(currentPage)
    {
      if value != sortBy {
        sortBy := value;
        currentPage := 1;
      }
    }

    method ChangePage(page: int)
      modifies this`currentPage
      ensures currentPage == page
    {
      currentPage := page;
    }

    /** `fetchCategoryAndProducts`, with the two awaited responses as inputs.
        Returns the products request it makes, if any; `productsResponse` is
        only consulted when that request is made. */
    method FetchCategoryAndProducts(categoriesResponse: Fetch<CategoryBody>, productsResponse: Fetch<ListBody>)
      returns (request: Option<Params>)
      modifies this`category, this`products, this`loading, this`totalPages, this`totalCount
      ensures !loading
      // the categories request failed: the list is reset, the category is kept
      ensures categoriesResponse.Failed? ==>
        request.None? && category == old(category) &&
        products == [] && totalPages == 1 && totalCount == 0
      // no category has the slug: everything is reset and no products request is made
      ensures categoriesResponse.Ok? && FindBySlug(CategoriesOf(categoriesResponse.body), slug).None? ==>
        request.None? && category.None? && products == [] && totalPages == 1 && totalCount == 0
      // the category was found: it is shown and its products are requested
      ensures categoriesResponse.Ok? && FindBySlug(CategoriesOf(categoriesResponse.body), slug).Some? ==>
        category == FindBySlug(CategoriesOf(categoriesResponse.body), slug) &&
        request == Some(ProductQuery(Some(slug), currentPage, sortBy)) &&
        (productsResponse.Failed? ==> products == [] && totalPages == 1 && totalCount == 0) &&
        (productsResponse.Ok? && productsResponse.body.Paged? ==>
          products == productsResponse.body.results &&
          totalPages == TotalPages(productsResponse.body.count) &&
          totalCount == productsResponse.body.count) &&
        (productsResponse.Ok? && productsResponse.body.Plain? ==>
          products == productsResponse.body.items && totalPages == 1 &&
          totalCount == |productsResponse.body.items|) &&
        (productsResponse.Ok? && productsResponse.body.NotAList? ==>
          products == [] && totalPages == 1 && totalCount == 0)
    {
      loading := true;
      request := None;
      match categoriesResponse {
        case Failed =>
          products, totalPages, totalCount := [], 1, 0;
        case Ok(body) =>
          var found := FindBySlug(CategoriesOf(body), slug);
          if found.None? {
            category := None;
            products, totalPages, totalCount := [], 1, 0;
          } else {
            category := found;
            var params := Params(Some(slug), currentPage, None);
            if sortBy == "price_asc" {
              params := params.(ordering := Some("price"));
            } else if sortBy == "price_desc" {
              params := params.(ordering := Some("-price"));
            }
            request := Some(params);
            match productsResponse {
              case Failed =>
                products, totalPages, totalCount := [], 1, 0;
              case Ok(listBody) =>
                var s := ListStateOf(listBody);
                products, totalPages, totalCount := s.products, s.totalPages, s.totalCount;
            }
          }
      }
      loading := false;
    }
  }
}
