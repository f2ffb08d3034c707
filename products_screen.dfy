/** The catalog screen (screens/ProductsScreen.tsx): the initial load, the four
    handlers that re-query the products, and `addToCart`. Each handler is one atomic
    step over the screen's state: the reply of `getProducts` is a parameter, the query
    it would send is appended to `requests`, and every value the handler reads from
    the state is the one it held when the handler started. */
module ProductsScreen {
  import opened Common
  import opened Schema
  import opened QueryArgs
  import opened Queries
  import opened Cart
  import opened Api

  /** The options of the sort menu. */
  const SortOptions: set<string> := {"name", "cheapest", "expensive", "orders"}

  /** The `switch (sortBy)` of every handler: the `order_by` and `order` it adds, None
      for a value without a case (then neither is sent). */
  function SortParams(sortBy: string): (r: Option<(string, string)>)
    ensures r.Some? <==> sortBy in SortOptions
    ensures r.Some? ==> r.value.0 in OrderByFields && r.value.1 in {"asc", "desc"}
    ensures sortBy == "name" ==> r == Some(("name", "asc"))
    ensures sortBy == "cheapest" ==> r == Some(("price", "asc"))
    ensures sortBy == "expensive" ==> r == Some(("price", "desc"))
    ensures sortBy == "orders" ==> r == Some(("units_sold", "desc"))
  {
    if sortBy == "name" then Some(("name", "asc"))
    else if sortBy == "cheapest" then Some(("price", "asc"))
    else if sortBy == "expensive" then Some(("price", "desc"))
    else if sortBy == "orders" then Some(("units_sold", "desc"))
    else None
  }

  /** The query string of a handler: `page`, `limit` and `name_query`, then what the
      sort switch adds. */
  function ProductArgs(page: int, limit: int, term: string, sortBy: string): (a: Args)
    ensures a.Keys == {"page", "limit", "name_query"} + (if sortBy in SortOptions then {"order_by", "order"} else {})
  {
    var base := map["page" := IntString(page), "limit" := IntString(limit), "name_query" := term];
    match SortParams(sortBy)
    case None => base
    case Some((field, order)) => base["order_by" := field]["order" := order]
  }

  /** The query string of the initial load: only `page` and `limit`. */
  function InitialArgs(page: int, limit: int): (a: Args)
    ensures a.Keys == {"page", "limit"}
  {
    map["page" := IntString(page), "limit" := IntString(limit)]
  }

  /** The server reads back exactly what a handler asks for: its page, its limit, the
      trimmed search term, and the field and direction of the chosen sort. */
  lemma ServerReadsHandlerQuery(page: int, limit: int, term: string, sortBy: string)
    requires page >= 1 && 1 <= limit <= 50 && sortBy in SortOptions
    ensures var a := ProductArgs(page, limit, term, sortBy);
      var s := SortParams(sortBy).value;
      CheckProductArgs(a) == Ok(ProductQuery(Paging(page, limit), Trim(term, PyStrip), s.0, s.1 == "asc"))
  {
    var a := ProductArgs(page, limit, term, sortBy);
    var s := SortParams(sortBy).value;
    PagingRead(a, page, limit);
    assert a["order_by"] == s.0 && a["order"] == s.1;
    TrimPlain(s.0);
    TrimPlain(s.1);
    assert ArgStr(a, "order_by", "name") == s.0;
    assert ArgStr(a, "order", "asc") == s.1;
    assert ArgStr(a, "name_query", "") == Trim(term, PyStrip);
  }

  /** A word without whitespace trims to itself. */
  lemma TrimPlain(w: string)
    requires w in {"name", "price", "units_sold", "asc", "desc"}
    ensures Trim(w, PyStrip) == w
  {
    assert TrimLeft(w, PyStrip) == w;
    assert TrimRight(w, PyStrip) == w;
  }

  /** The initial load sends no sort and no search, and the server's defaults make it the
      same query as a handler's with the initial state. */
  lemma InitialLoadDefaults()
    ensures CheckProductArgs(InitialArgs(1, 3)) == Ok(ProductQuery(Paging(1, 3), "", "name", true))
    ensures CheckProductArgs(InitialArgs(1, 3)) == CheckProductArgs(ProductArgs(1, 3, "", "name"))
  {
    var a := InitialArgs(1, 3);
    ParseIntString(1);
    ParseIntString(3);
    assert ArgInt(a, "page", 1) == 1;
    assert ArgInt(a, "limit", 20) == 3;
    assert Trim("", PyStrip) == "";
    TrimPlain("name");
    TrimPlain("asc");
    ServerReadsHandlerQuery(1, 3, "", "name");
  }

  class ProductsScreenState {
    var products: seq<ProductView>
    var loading: bool
    var error: Option<string>
    var page: int
    var totalPages: int
    var itemsPerPage: int
    var searchTerm: string
    var sortBy: string
    var requests: seq<Request>
    const storage: LocalStorage

    /** The state before the first fetch. */
    constructor(storage: LocalStorage)
      ensures this.storage == storage
      ensures products == [] && loading && error == None && page == 1 && totalPages == 1
      ensures itemsPerPage == 3 && searchTerm == "" && sortBy == "name" && requests == []
    {
      this.storage := storage;
      products := [];
      loading := true;
      error := None;
      page := 1;
      totalPages := 1;
      itemsPerPage := 3;
      searchTerm := "";
      sortBy := "name";
      requests := [];
    }

    /** The effect run once at mount. */
    method Mount(resp: Response<ProductsPage>)
      modifies this
      ensures requests == old(requests) + [GetProducts(InitialArgs(old(page), old(itemsPerPage)))]
      ensures var o := ProductsOutcome(resp);
        && products == (if o.Success? then o.data.products else old(products))
        && totalPages == (if o.Success? then o.data.totalPages else old(totalPages))
        && error == (if o.Failure? then Some(o.error) else old(error))
      ensures !loading && page == old(page)
      ensures itemsPerPage == old(itemsPerPage) && searchTerm == old(searchTerm) && sortBy == old(sortBy)
    {
      var request := GetProducts(InitialArgs(page, itemsPerPage));
      var outcome := ProductsOutcome(resp);
      requests := requests + [request];
      if outcome.Failure? {
        error := Some(outcome.error);
      } else {
        products := outcome.data.products;
        totalPages := outcome.data.totalPages;
      }
      loading := false;
    }

    /** The common tail of the four handlers: store the answer and apply the clamp, which
        compares with the page held at the start and falls back to the page count held
        at the start. */
    method Settle(resp: Response<ProductsPage>, pageAtStart: int, totalAtStart: int)
      modifies this
      ensures var o := ProductsOutcome(resp);
        && products == (if o.Success? then o.data.products else old(products))
        && totalPages == (if o.Success? then o.data.totalPages else old(totalPages))
        && error == (if o.Failure? then Some(o.error) else old(error))
        && page == (if o.Success? && o.data.totalPages < pageAtStart then totalAtStart else old(page))
      ensures !loading && requests == old(requests)
      ensures itemsPerPage == old(itemsPerPage) && searchTerm == old(searchTerm) && sortBy == old(sortBy)
    {
      var outcome := ProductsOutcome(resp);
      if outcome.Failure? {
        error := Some(outcome.error);
      } else {
        products := outcome.data.products;
        totalPages := outcome.data.totalPages;
        if outcome.data.totalPages < pageAtStart {
          page := totalAtStart;
        }
      }
      loading := false;
    }

    /** `handlePageChange(value)`: the clamp compares with the page before the change. */
    method HandlePageChange(value: int, resp: Response<ProductsPage>)
      modifies this
      ensures requests == old(requests) + [GetProducts(ProductArgs(value, old(itemsPerPage), old(searchTerm), old(sortBy)))]
      ensures var o := ProductsOutcome(resp);
        && products == (if o.Success? then o.data.products else old(products))
        && totalPages == (if o.Success? then o.data.totalPages else old(totalPages))
        && error == (if o.Failure? then Some(o.error) else old(error))
        && page == (if o.Success? && o.data.totalPages < old(page) then old(totalPages) else value)
      ensures !loading
      ensures itemsPerPage == old(itemsPerPage) && searchTerm == old(searchTerm) && sortBy == old(sortBy)
    {
      var pageAtStart, totalAtStart := page, totalPages;
      loading := true;
      page := value;
      requests := requests + [GetProducts(ProductArgs(value, itemsPerPage, searchTerm, sortBy))];
      Settle(resp, pageAtStart, totalAtStart);
    }

    /** `handleSearchChange(term)`. */
    method HandleSearchChange(term: string, resp: Response<ProductsPage>)
      modifies this
      ensures requests == old(requests) + [GetProducts(ProductArgs(old(page), old(itemsPerPage), term, old(sortBy)))]
      ensures var o := ProductsOutcome(resp);
        && products == (if o.Success? then o.data.products else old(products))
        && totalPages == (if o.Success? then o.data.totalPages else old(totalPages))
        && error == (if o.Failure? then Some(o.error) else old(error))
        && page == (if o.Success? && o.data.totalPages < old(page) then old(totalPages) else old(page))
      ensures !loading && searchTerm == term
      ensures itemsPerPage == old(itemsPerPage) && sortBy == old(sortBy)
    {
      var pageAtStart, totalAtStart := page, totalPages;
      loading := true;
      searchTerm := term;
      requests := requests + [GetProducts(ProductArgs(page, itemsPerPage, term, sortBy))];
      Settle(resp, pageAtStart, totalAtStart);
    }

    /** `handleSortChange(newSortBy)`. */
    method HandleSortChange(newSortBy: string, resp: Response<ProductsPage>)
      modifies this
      ensures requests == old(requests) + [GetProducts(ProductArgs(old(page), old(itemsPerPage), old(searchTerm), newSortBy))]
      ensures var o := ProductsOutcome(resp);
        && products == (if o.Success? then o.data.products else old(products))
        && totalPages == (if o.Success? then o.data.totalPages else old(totalPages))
        && error == (if o.Failure? then Some(o.error) else old(error))
        && page == (if o.Success? && o.data.totalPages < old(page) then old(totalPages) else old(page))
      ensures !loading && sortBy == newSortBy
      ensures itemsPerPage == old(itemsPerPage) && searchTerm == old(searchTerm)
    {
      var pageAtStart, totalAtStart := page, totalPages;
      loading := true;
      sortBy := newSortBy;
      requests := requests + [GetProducts(ProductArgs(page, itemsPerPage, searchTerm, newSortBy))];
      Settle(resp, pageAtStart, totalAtStart);
    }

    /** `handleItemsPerPageChange(n)`. */
    method HandleItemsPerPageChange(n: int, resp: Response<ProductsPage>)
      modifies this
      ensures requests == old(requests) + [GetProducts(ProductArgs(old(page), n, old(searchTerm), old(sortBy)))]
      ensures var o := ProductsOutcome(resp);
        && products == (if o.Success? then o.data.products else old(products))
        && totalPages == (if o.Success? then o.data.totalPages else old(totalPages))
        && error == (if o.Failure? then Some(o.error) else old(error))
        && page == (if o.Success? && o.data.totalPages < old(page) then old(totalPages) else old(page))
      ensures !loading && itemsPerPage == n
      ensures searchTerm == old(searchTerm) && sortBy == old(sortBy)
    {
      var pageAtStart, totalAtStart := page, totalPages;
      loading := true;
      itemsPerPage := n;
      requests := requests + [GetProducts(ProductArgs(page, n, searchTerm, sortBy))];
      Settle(resp, pageAtStart, totalAtStart);
    }

    /** `addToCart(p)`: read the saved cart, add one of `p` and save the result. */
    method AddToCart(p: ProductView)
      modifies storage
      ensures storage.items == old(storage.items)[CartKey := CartJson(Add(StoredCart(old(storage.GetItem(CartKey))), p))]
      ensures StoredCart(storage.GetItem(CartKey)) == Add(StoredCart(old(storage.GetItem(CartKey))), p)
    {
      var cart := StoredCart(storage.GetItem(CartKey));
      var newCart := cart[p.id := AddLine(cart, p)];
      storage.SetItem(CartKey, CartJson(newCart));
      StoredCartRoundTrip(newCart);
    }

    /** The "Add to Cart" button, disabled for a product with no stock. */
    method PressAddToCart(p: ProductView)
      modifies storage
      ensures p.stock == 0 ==> storage.items == old(storage.items)
      ensures p.stock != 0 ==> StoredCart(storage.GetItem(CartKey)) == Add(StoredCart(old(storage.GetItem(CartKey))), p)
    {
      if p.stock != 0 {
        AddToCart(p);
      }
    }
  }

  /** An answer with `pages` full pages of three. */
  function PageOf(pages: int): ProductsPage
  {
    ProductsPage(1, 3, 3 * pages, pages, [])
  }

  /** The stale clamp: on page 2 of 2, a search that leaves one page keeps the screen on
      page 2, past the new page count. */
  method StaleClampScenario() returns (page: int, totalPages: int)
    ensures page == 2 && totalPages == 1
  {
    var storage := new LocalStorage();
    var screen := new ProductsScreenState(storage);
    screen.Mount(Received(200, Some(Body(Some(PageOf(2)), None))));
    screen.HandlePageChange(2, Received(200, Some(Body(Some(PageOf(2)), None))));
    screen.HandleSearchChange("x", Received(200, Some(Body(Some(PageOf(1)), None))));
    page, totalPages := screen.page, screen.totalPages;
  }

  /** The clamp compares against the page being left: on page 1 of 1, asking for page 2
      with a one-page reply leaves the screen on page 2 of 1, since the reply's page
      count is not below the old page. */
  method StalePageScenario() returns (page: int, totalPages: int)
    ensures page == 2 && totalPages == 1
  {
    var storage := new LocalStorage();
    var screen := new ProductsScreenState(storage);
    screen.Mount(Received(200, Some(Body(Some(PageOf(1)), None))));
    screen.HandlePageChange(2, Received(200, Some(Body(Some(PageOf(1)), None))));
    page, totalPages := screen.page, screen.totalPages;
  }
}
