/** The two list endpoints of the API (main.py): `get_orders` and `get_products`. Each
    reads its query-string arguments, validates them, and answers one page of the
    matching documents, sorted, with `skip = (page - 1) * limit` and
    `total_pages = ceil(total / limit)`. The collection is given in its natural order;
    MongoDB's collation and regular expressions are parameters (`Engine`). */
module Listing {
  import opened Common
  import opened Schema
  import opened QueryArgs
  import opened Pagination
  import opened Queries

  /** The answer of a list endpoint. */
  datatype Answer<D> = Ok200(data: D) | Failed(status: int, error: string)

  // ---------------------------------------------------------------------------
  // get_orders (main.py:182-247)

  /** `get_orders`. `find` runs under the collation, `count_documents` does not, so the
      listing compares strings with `eng.same` and the count with plain equality. */
  function GetOrders(stored: seq<StoredOrder>, args: Args, eng: Engine): (r: Answer<OrdersPage>)
    ensures CheckOrderArgs(args).Err? ==> r == Failed(400, CheckOrderArgs(args).error)
    ensures CheckOrderArgs(args).Ok? ==> r.Ok200? && ServesOrders(stored, CheckOrderArgs(args).value, eng, r.data)
  {
    var checked := CheckOrderArgs(args);
    if checked.Err? then Failed(400, checked.error)
    else
      Ok200(OrdersPageFor(stored, checked.value, eng))
  }

  /** Every page of orders is newest first when the collation orders `created_at` totally. */
  lemma GetOrdersNewestFirst(stored: seq<StoredOrder>, args: Args, eng: Engine)
    requires Total(eng.le) && GetOrders(stored, args, eng).Ok200?
    ensures Sorted(GetOrders(stored, args, eng).data.orders, NewestFirst(eng))
  {
    var q := CheckOrderArgs(args).value;
    var le := NewestFirst(eng);
    forall a, b ensures le(a, b) || le(b, a) {
      assert eng.le(b.1.createdAt, a.1.createdAt) || eng.le(a.1.createdAt, b.1.createdAt);
    }
    SortSorted(FilterOrders(stored, q, eng.same), le);
    WindowSorted(Sort(FilterOrders(stored, q, eng.same), le), le, Skip(q.paging.page, q.paging.limit), q.paging.limit);
  }

  /** The listed page does not depend on how a sort breaks ties: when no two matching
      orders are equal under newest-first, every newest-first arrangement of the matches
      (whatever order MongoDB's cursor returns them in) has the listed page at `skip`. */
  lemma GetOrdersTieFree(stored: seq<StoredOrder>, args: Args, eng: Engine, ordering: seq<StoredOrder>)
    requires Total(eng.le) && Transitive(eng.le)
    requires GetOrders(stored, args, eng).Ok200?
    requires multiset(ordering) == multiset(FilterOrders(stored, CheckOrderArgs(args).value, eng.same))
    requires Sorted(ordering, NewestFirst(eng)) && NoTies(ordering, NewestFirst(eng))
    ensures var q := CheckOrderArgs(args).value;
      GetOrders(stored, args, eng).data.orders == Window(ordering, Skip(q.paging.page, q.paging.limit), q.paging.limit)
  {
    var q := CheckOrderArgs(args).value;
    var le := NewestFirst(eng);
    forall a, b ensures le(a, b) || le(b, a) {
      assert eng.le(b.1.createdAt, a.1.createdAt) || eng.le(a.1.createdAt, b.1.createdAt);
    }
    forall a, b, c | le(a, b) && le(b, c) ensures le(a, c) {
      assert eng.le(c.1.createdAt, b.1.createdAt) && eng.le(b.1.createdAt, a.1.createdAt);
    }
    SortSorted(FilterOrders(stored, q, eng.same), le);
    SortedUnique(ordering, Sort(FilterOrders(stored, q, eng.same), le), le);
  }

  /** Where the collation's equality is plain equality, the count agrees with the listing:
      pages 1 to `total_pages` list every matching order exactly once. */
  lemma GetOrdersPagesCover(stored: seq<StoredOrder>, q: OrderQuery, eng: Engine)
    requires q.paging.limit >= 1
    requires forall a, b :: eng.same(a, b) <==> a == b
    ensures var all := Sort(FilterOrders(stored, q, eng.same), NewestFirst(eng));
      && |all| == |FilterOrders(stored, q, Exact())|
      && PagesUpTo(all, q.paging.limit, TotalPages(|FilterOrders(stored, q, Exact())|, q.paging.limit)) == all
  {
    SameFilter(stored, q, eng.same);
    var all := Sort(FilterOrders(stored, q, eng.same), NewestFirst(eng));
    assert |all| == |multiset(all)|;
    PagesCover(all, q.paging.limit);
  }


  /** Under a case-insensitive collation the two disagree: filtering by an address written
      in upper case lists the stored order while `total_orders` and `total_pages` are 0. */
  lemma GetOrdersCountDisagrees()
    ensures var o := Order("a@b.c", "t", [], Unpaid, 0);
      var eng := Engine((a: string, b: string) => LowerAscii(a) == LowerAscii(b), (a: string, b: string) => LexLe(a, b), (p: string) => true, (p: string, n: string) => true);
      var r := GetOrders([("000000000000000000000001", o)], map["filter_email" := "A@B.C"], eng);
      && r.Ok200?
      && r.data.orders == [("000000000000000000000001", o)]
      && r.data.totalOrders == 0 && r.data.totalPages == 0
  {
    var o := Order("a@b.c", "t", [], Unpaid, 0);
    var eng := Engine((a: string, b: string) => LowerAscii(a) == LowerAscii(b), (a: string, b: string) => LexLe(a, b), (p: string) => true, (p: string, n: string) => true);
    var args := map["filter_email" := "A@B.C"];
    var stored := [("000000000000000000000001", o)];
    assert ArgStr(args, "filter_email", "") == "A@B.C" by {
      assert TrimLeft("A@B.C", PyStrip) == "A@B.C";
      assert TrimRight("A@B.C", PyStrip) == "A@B.C";
    }
    assert ArgStr(args, "filter_status", "") == "";
    var q := CheckOrderArgs(args).value;
    assert q == OrderQuery(Paging(1, 20), "A@B.C", "");
    assert LowerAscii("A@B.C") == "a@b.c";
    assert LowerAscii("a@b.c") == "a@b.c";
    assert OrderMatches(q, o, eng.same);
    assert !OrderMatches(q, o, Exact());
    assert FilterOrders(stored, q, eng.same) == stored;
    assert FilterOrders(stored, q, Exact()) == [];
  }

  function LowerAscii(s: string): string
  {
    seq(|s|, i requires 0 <= i < |s| => if 'A' <= s[i] <= 'Z' then (s[i] as int + 32) as char else s[i])
  }

  // ---------------------------------------------------------------------------
  // get_products (main.py:298-363)


  /** `get_products`. A name query the regular-expression engine refuses makes `find`
      raise, which the `except` reports as a 500. */
  function GetProducts(stored: seq<StoredProduct>, args: Args, eng: Engine): (r: Answer<ProductsPage>)
    ensures CheckProductArgs(args).Err? ==> r == Failed(400, CheckProductArgs(args).error)
    ensures CheckProductArgs(args).Ok? ==>
              var q := CheckProductArgs(args).value;
              if q.nameQuery != "" && !eng.validPattern(q.nameQuery) then r == Failed(500, "Internal Server Error.")
              else r.Ok200? && ServesProducts(stored, q, eng, r.data)
  {
    var checked := CheckProductArgs(args);
    if checked.Err? then Failed(400, checked.error)
    else
      var q := checked.value;
      if q.nameQuery != "" && !eng.validPattern(q.nameQuery) then Failed(500, "Internal Server Error.")
      else Ok200(ProductsPageFor(stored, q, eng))
  }

  /** The products of every page follow the requested field and direction. */
  lemma GetProductsSorted(stored: seq<StoredProduct>, args: Args, eng: Engine)
    requires Total(eng.le) && GetProducts(stored, args, eng).Ok200?
    ensures var q := CheckProductArgs(args).value;
      var page := Window(Sort(FilterProducts(stored, q, eng), ProductOrder(q, eng)), Skip(q.paging.page, q.paging.limit), q.paging.limit);
      && GetProducts(stored, args, eng).data.products == Views(page)
      && Sorted(page, ProductOrder(q, eng))
  {
    var q := CheckProductArgs(args).value;
    ProductOrderTotal(q, eng);
    SortSorted(FilterProducts(stored, q, eng), ProductOrder(q, eng));
    WindowSorted(Sort(FilterProducts(stored, q, eng), ProductOrder(q, eng)), ProductOrder(q, eng), Skip(q.paging.page, q.paging.limit), q.paging.limit);
  }

  /** Likewise for products: without ties under the requested order, every ordered
      arrangement of the matches has the listed page at `skip`. */
  lemma GetProductsTieFree(stored: seq<StoredProduct>, args: Args, eng: Engine, ordering: seq<StoredProduct>)
    requires Total(eng.le) && Transitive(eng.le)
    requires GetProducts(stored, args, eng).Ok200?
    requires multiset(ordering) == multiset(FilterProducts(stored, CheckProductArgs(args).value, eng))
    requires Sorted(ordering, ProductOrder(CheckProductArgs(args).value, eng))
    requires NoTies(ordering, ProductOrder(CheckProductArgs(args).value, eng))
    ensures var q := CheckProductArgs(args).value;
      GetProducts(stored, args, eng).data.products == Views(Window(ordering, Skip(q.paging.page, q.paging.limit), q.paging.limit))
  {
    var q := CheckProductArgs(args).value;
    ProductOrderTotal(q, eng);
    ProductOrderTransitive(q, eng);
    SortSorted(FilterProducts(stored, q, eng), ProductOrder(q, eng));
    SortedUnique(ordering, Sort(FilterProducts(stored, q, eng), ProductOrder(q, eng)), ProductOrder(q, eng));
  }

  /** Each matching product is listed on exactly the page its rank puts it on, and the
      pages 1 to `total_pages` together list every matching product once. */
  lemma GetProductsPages(stored: seq<StoredProduct>, q: ProductQuery, eng: Engine, i: int)
    requires q.paging.limit >= 1
    requires 0 <= i < |FilterProducts(stored, q, eng)|
    ensures var all := Sort(FilterProducts(stored, q, eng), ProductOrder(q, eng));
      var limit := q.paging.limit;
      var page := i / limit + 1;
      && |all| == |FilterProducts(stored, q, eng)|
      && 1 <= page <= TotalPages(|all|, limit)
      && i % limit < |Window(all, (page - 1) * limit, limit)|
      && Window(all, (page - 1) * limit, limit)[i % limit] == all[i]
      && PagesUpTo(all, limit, TotalPages(|all|, limit)) == all
  {
    var all := Sort(FilterProducts(stored, q, eng), ProductOrder(q, eng));
    assert |all| == |multiset(all)|;
    PageOfIndex(all, q.paging.limit, i);
    PagesCover(all, q.paging.limit);
  }
}

