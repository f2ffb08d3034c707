/** What MongoDB computes for the two list endpoints: the documents a filter keeps,
    the sort orders, and the page a `find(...).skip(...).limit(...).sort(...)` cursor
    returns (main.py:211-222 and 328-340). */
module Queries {
  import opened Common
  import opened Schema
  import opened QueryArgs
  import opened Pagination

  /** The parts of MongoDB that the model leaves abstract: string comparison under the
      `sk`, strength 1 collation (`same` for equality in queries, `le` for sorting), and
      case-insensitive regular expressions (`validPattern`, `search(pattern, name)`). */
  datatype Engine = Engine(
    same: (string, string) -> bool,
    le: (string, string) -> bool,
    validPattern: string -> bool,
    search: (string, string) -> bool)

  type StoredOrder = (ObjectId, Order)

  /** The filter document built from the query: an empty filter is left out, the others
      must all hold. `eq` is the string equality used. */
  predicate OrderMatches(q: OrderQuery, o: Order, eq: (string, string) -> bool)
  {
    (q.status == "" || eq(o.status, q.status)) && (q.email == "" || eq(o.email, q.email))
  }

  function Exact(): (string, string) -> bool
  {
    (a, b) => a == b
  }

  function FilterOrders(s: seq<StoredOrder>, q: OrderQuery, eq: (string, string) -> bool): (r: seq<StoredOrder>)
    ensures forall x :: x in r <==> x in s && OrderMatches(q, x.1, eq)
    ensures |r| <= |s|
  {
    if s == [] then []
    else (if OrderMatches(q, s[0].1, eq) then [s[0]] else []) + FilterOrders(s[1..], q, eq)
  }

  /** `.sort("created_at", DESCENDING)` under the collation. */
  function NewestFirst(eng: Engine): (StoredOrder, StoredOrder) -> bool
  {
    (a: StoredOrder, b: StoredOrder) => eng.le(b.1.createdAt, a.1.createdAt)
  }

  /** The page `find(query).skip(skip).limit(limit).sort(...)` returns: sorting comes
      first, whatever the order of the cursor calls. */
  function OrdersListed(stored: seq<StoredOrder>, q: OrderQuery, eng: Engine): (r: seq<StoredOrder>)
    requires q.paging.page >= 1 && q.paging.limit >= 1
    ensures r == Window(Sort(FilterOrders(stored, q, eng.same), NewestFirst(eng)), Skip(q.paging.page, q.paging.limit), q.paging.limit)
    ensures |r| <= q.paging.limit
    ensures forall x :: x in r ==> x in stored && OrderMatches(q, x.1, eng.same)
  {
    var sorted := Sort(FilterOrders(stored, q, eng.same), NewestFirst(eng));
    var page := Window(sorted, Skip(q.paging.page, q.paging.limit), q.paging.limit);
    assert forall x :: x in page ==> x in multiset(sorted);
    page
  }

  datatype OrdersPage = OrdersPage(page: int, limit: int, totalOrders: int, totalPages: int, orders: seq<StoredOrder>)

  /** What a page of orders promises: the requested page and limit echoed, the page of
      the matching orders newest first that starts at `skip`, and the count and page
      count of the documents that match the filter with plain string equality. */
  predicate ServesOrders(stored: seq<StoredOrder>, q: OrderQuery, eng: Engine, d: OrdersPage)
    requires q.paging.page >= 1 && q.paging.limit >= 1
  {
    && d.page == q.paging.page && d.limit == q.paging.limit
    && d.orders == Window(Sort(FilterOrders(stored, q, eng.same), NewestFirst(eng)), Skip(q.paging.page, q.paging.limit), q.paging.limit)
    && |d.orders| <= q.paging.limit
    && (forall x :: x in d.orders ==> x in stored && OrderMatches(q, x.1, eng.same))
    && d.totalOrders == |FilterOrders(stored, q, Exact())|
    && d.totalPages == TotalPages(|FilterOrders(stored, q, Exact())|, q.paging.limit)
  }

  /** The `data` of a successful `get_orders`: the page and the count (main.py:222-238). */
  function OrdersPageFor(stored: seq<StoredOrder>, q: OrderQuery, eng: Engine): (d: OrdersPage)
    requires q.paging.page >= 1 && q.paging.limit >= 1
    ensures ServesOrders(stored, q, eng, d)
  {
    var total := |FilterOrders(stored, q, Exact())|;
    OrdersPage(q.paging.page, q.paging.limit, total, TotalPages(total, q.paging.limit), OrdersListed(stored, q, eng))
  }

  lemma {:induction false} SameFilter(s: seq<StoredOrder>, q: OrderQuery, eq: (string, string) -> bool)
    requires forall a, b :: eq(a, b) <==> a == b
    ensures FilterOrders(s, q, eq) == FilterOrders(s, q, Exact())
    decreases |s|
  {
    if s != [] {
      assert OrderMatches(q, s[0].1, eq) == OrderMatches(q, s[0].1, Exact());
      SameFilter(s[1..], q, eq);
    }
  }

  type StoredProduct = (ObjectId, Product)

  /** `{"name": {"$regex": name_query, "$options": "i"}}`, or no filter for an empty query. */
  predicate ProductMatches(q: ProductQuery, p: Product, eng: Engine)
  {
    q.nameQuery == "" || eng.search(q.nameQuery, p.name)
  }

  function FilterProducts(s: seq<StoredProduct>, q: ProductQuery, eng: Engine): (r: seq<StoredProduct>)
    ensures forall x :: x in r <==> x in s && ProductMatches(q, x.1, eng)
    ensures |r| <= |s|
  {
    if s == [] then []
    else (if ProductMatches(q, s[0].1, eng) then [s[0]] else []) + FilterProducts(s[1..], q, eng)
  }

  /** The ascending order of one sort field. */
  function FieldLe(field: string, eng: Engine): (StoredProduct, StoredProduct) -> bool
  {
    (a: StoredProduct, b: StoredProduct) =>
      if field == "name" then eng.le(a.1.name, b.1.name)
      else if field == "_id" then LexLe(a.0, b.0)
      else if field == "stock" then a.1.stock <= b.1.stock
      else if field == "price" then a.1.price <= b.1.price
      else a.1.unitsSold <= b.1.unitsSold
  }

  function ProductOrder(q: ProductQuery, eng: Engine): (StoredProduct, StoredProduct) -> bool
  {
    if q.ascending then FieldLe(q.orderBy, eng) else Flip(FieldLe(q.orderBy, eng))
  }

  /** A listed product: the projection `{"units_sold": 0}` leaves out units sold. */
  datatype ProductView = ProductView(id: ObjectId, name: string, price: int, stock: int)

  function View(x: StoredProduct): ProductView
  {
    ProductView(x.0, x.1.name, x.1.price, x.1.stock)
  }

  function Views(s: seq<StoredProduct>): (r: seq<ProductView>)
    ensures |r| == |s| && forall i :: 0 <= i < |s| ==> r[i] == View(s[i])
  {
    seq(|s|, i requires 0 <= i < |s| => View(s[i]))
  }

  /** The page of products `find(query, projection).skip(skip).limit(limit).sort(...)`
      returns. */
  function ProductsListed(stored: seq<StoredProduct>, q: ProductQuery, eng: Engine): (r: seq<ProductView>)
    requires q.paging.page >= 1 && q.paging.limit >= 1
    ensures r == Views(Window(Sort(FilterProducts(stored, q, eng), ProductOrder(q, eng)), Skip(q.paging.page, q.paging.limit), q.paging.limit))
    ensures |r| <= q.paging.limit
    ensures forall v :: v in r ==> exists x :: x in stored && ProductMatches(q, x.1, eng) && v == View(x)
  {
    var sorted := Sort(FilterProducts(stored, q, eng), ProductOrder(q, eng));
    var page := Window(sorted, Skip(q.paging.page, q.paging.limit), q.paging.limit);
    var views := Views(page);
    assert forall i :: 0 <= i < |page| ==> page[i] in multiset(sorted);
    views
  }

  datatype ProductsPage = ProductsPage(page: int, limit: int, totalProducts: int, totalPages: int, products: seq<ProductView>)

  /** What a page of products promises: the requested page and limit echoed, the views
      of the page of sorted matching products that starts at `skip` (so at most `limit`
      views of stored products that match the name query), and the count and page count
      of all matching products. */
  predicate ServesProducts(stored: seq<StoredProduct>, q: ProductQuery, eng: Engine, d: ProductsPage)
    requires q.paging.page >= 1 && q.paging.limit >= 1
  {
    && d.page == q.paging.page && d.limit == q.paging.limit
    && d.products == Views(Window(Sort(FilterProducts(stored, q, eng), ProductOrder(q, eng)), Skip(q.paging.page, q.paging.limit), q.paging.limit))
    && |d.products| <= q.paging.limit
    && (forall v :: v in d.products ==> exists x :: x in stored && ProductMatches(q, x.1, eng) && v == View(x))
    && d.totalProducts == |FilterProducts(stored, q, eng)|
    && d.totalPages == TotalPages(|FilterProducts(stored, q, eng)|, q.paging.limit)
  }

  /** The `data` of a successful `get_products` (main.py:340-354). */
  function ProductsPageFor(stored: seq<StoredProduct>, q: ProductQuery, eng: Engine): (d: ProductsPage)
    requires q.paging.page >= 1 && q.paging.limit >= 1
    ensures ServesProducts(stored, q, eng, d)
  {
    var total := |FilterProducts(stored, q, eng)|;
    ProductsPage(q.paging.page, q.paging.limit, total, TotalPages(total, q.paging.limit), ProductsListed(stored, q, eng))
  }

  /** Every sort field orders totally (the name field when the collation does). */
  lemma ProductOrderTotal(q: ProductQuery, eng: Engine)
    requires Total(eng.le)
    ensures Total(ProductOrder(q, eng))
  {
    var le := FieldLe(q.orderBy, eng);
    forall a, b ensures le(a, b) || le(b, a) {
      if q.orderBy == "name" {
        assert eng.le(a.1.name, b.1.name) || eng.le(b.1.name, a.1.name);
      } else if q.orderBy == "_id" {
        LexLeTotal(a.0, b.0);
      }
    }
    if !q.ascending {
      FlipTotal(le);
    }
  }

  /** Every sort field orders transitively (the name field when the collation does). */
  lemma ProductOrderTransitive(q: ProductQuery, eng: Engine)
    requires Transitive(eng.le)
    ensures Transitive(ProductOrder(q, eng))
  {
    var le := FieldLe(q.orderBy, eng);
    forall a, b, c | le(a, b) && le(b, c) ensures le(a, c) {
      if q.orderBy == "name" {
        assert eng.le(a.1.name, b.1.name) && eng.le(b.1.name, c.1.name);
      } else if q.orderBy == "_id" {
        LexLeTransitive(a.0, b.0, c.0);
      }
    }
    var ord := ProductOrder(q, eng);
    forall a, b, c | ord(a, b) && ord(b, c) ensures ord(a, c) {
      if !q.ascending {
        assert le(c, b) && le(b, a);
      }
    }
  }
}
