/**
 * The `products` Redux slice: the paged product list with its server-side total and
 * page, one product loaded by id, the featured products, and the shared loading and
 * error flags of the three fetch thunks.
 */
module ProductSlice {
  import opened Wrappers
  import opened Text
  import opened Prices

  datatype Product = Product(id: int, name: string, price: PriceInput)

  /** The paged response of `getProducts`: `{data, meta: {total, current_page}}`. */
  datatype Page = Page(data: seq<Product>, total: int, currentPage: int)

  datatype Thunk = FetchProducts | FetchProductById | FetchFeaturedProducts

  function Fallback(t: Thunk): string
  {
    match t
    case FetchProducts => "Failed to fetch products"
    case FetchProductById => "Failed to fetch product"
    case FetchFeaturedProducts => "Failed to fetch featured products"
  }

  class Slice {
    var products: seq<Product>
    var product: Option<Product>
    var featuredProducts: seq<Product>
    var loading: bool
    var error: Option<string>
    var totalItems: int
    var currentPage: int

    constructor ()
      ensures products == [] && product == None && featuredProducts == []
      ensures !loading && error == None && totalItems == 0 && currentPage == 1
    {
      products, product, featuredProducts := [], None, [];
      loading, error, totalItems, currentPage := false, None, 0, 1;
    }

    method SetCurrentPage(page: int)
      modifies this
      ensures currentPage == page
      ensures products == old(products) && product == old(product) && featuredProducts == old(featuredProducts)
      ensures loading == old(loading) && error == old(error) && totalItems == old(totalItems)
    {
      currentPage := page;
    }

    /** Every thunk's `pending` case. */
    method Pending()
      modifies this
      ensures loading && error == None
      ensures products == old(products) && product == old(product) && featuredProducts == old(featuredProducts)
      ensures totalItems == old(totalItems) && currentPage == old(currentPage)
    {
      loading, error := true, None;
    }

    /** fetchProducts' `fulfilled` case; a previous error is left in place. */
    method ProductsFulfilled(payload: Page)
      modifies this
      ensures !loading && products == payload.data
      ensures totalItems == payload.total && currentPage == payload.currentPage
      ensures product == old(product) && featuredProducts == old(featuredProducts) && error == old(error)
    {
      loading := false;
      products, totalItems, currentPage := payload.data, payload.total, payload.currentPage;
    }

    method ProductFulfilled(payload: Product)
      modifies this
      ensures !loading && product == Some(payload)
      ensures products == old(products) && featuredProducts == old(featuredProducts) && error == old(error)
      ensures totalItems == old(totalItems) && currentPage == old(currentPage)
    {
      loading, product := false, Some(payload);
    }

    method FeaturedFulfilled(payload: seq<Product>)
      modifies this
      ensures !loading && featuredProducts == payload
      ensures products == old(products) && product == old(product) && error == old(error)
      ensures totalItems == old(totalItems) && currentPage == old(currentPage)
    {
      loading, featuredProducts := false, payload;
    }

    /** Every thunk's `rejected` case: only the flag and the message change. */
    method Rejected(t: Thunk, message: Option<string>)
      modifies this
      ensures !loading && error == Some(OrDefault(message, Fallback(t))) && error.value != ""
      ensures products == old(products) && product == old(product) && featuredProducts == old(featuredProducts)
      ensures totalItems == old(totalItems) && currentPage == old(currentPage)
    {
      loading, error := false, Some(OrDefault(message, Fallback(t)));
    }
  }
}
