/** The client's shopping cart (screens/ProductsScreen.tsx and
    screens/ShoppingCartScreen.tsx): a dictionary from product id to a snapshot of the
    product with a quantity, kept in the browser's `localStorage` under the key
    `"cart"` as JSON. Prices are integer cents. */
module Cart {
  import opened Common
  import opened Schema
  import opened Queries
  import opened Pagination

  /** `Product & { quantity: number }`. */
  datatype CartLine = CartLine(id: ObjectId, name: string, price: int, stock: int, quantity: int)

  /** The key order of the JavaScript object is not part of the model. */
  type Cart = map<ObjectId, CartLine>

  const CartKey := "cart"

  // ---------------------------------------------------------------------------
  // The stored record: JSON.stringify and JSON.parse of a cart

  function LineJson(l: CartLine): Json
  {
    JObj(map["_id" := JStr(l.id), "name" := JStr(l.name), "price" := JInt(l.price),
             "stock" := JInt(l.stock), "quantity" := JInt(l.quantity)])
  }

  function LineOfJson(j: Json): Option<CartLine>
  {
    if && j.JObj?
       && "_id" in j.fields && j.fields["_id"].JStr?
       && "name" in j.fields && j.fields["name"].JStr?
       && "price" in j.fields && j.fields["price"].JInt?
       && "stock" in j.fields && j.fields["stock"].JInt?
       && "quantity" in j.fields && j.fields["quantity"].JInt?
    then Some(CartLine(j.fields["_id"].s, j.fields["name"].s, j.fields["price"].i,
                       j.fields["stock"].i, j.fields["quantity"].i))
    else None
  }

  function CartJson(c: Cart): Json
  {
    JObj(map k | k in c :: LineJson(c[k]))
  }

  /** None for a record that is not a cart. */
  function CartOfJson(j: Json): Option<Cart>
  {
    if j.JObj? && forall k :: k in j.fields ==> LineOfJson(j.fields[k]).Some? then
      Some(map k | k in j.fields :: LineOfJson(j.fields[k]).value)
    else None
  }

  lemma LineJsonRoundTrip(l: CartLine)
    ensures LineOfJson(LineJson(l)) == Some(l)
  {
  }

  /** Writing a cart and reading it back gives the same cart. */
  lemma CartJsonRoundTrip(c: Cart)
    ensures CartOfJson(CartJson(c)) == Some(c)
  {
    var j := CartJson(c);
    forall k | k in j.fields ensures LineOfJson(j.fields[k]) == Some(c[k]) {
      LineJsonRoundTrip(c[k]);
    }
    assert (map k | k in j.fields :: LineOfJson(j.fields[k]).value) == c;
  }

  /** The cart a screen reads from storage: `JSON.parse(saved)` when a record is saved,
      otherwise the empty cart. */
  function StoredCart(saved: Option<Json>): (c: Cart)
    ensures saved.None? ==> c == map[]
    ensures saved.Some? && CartOfJson(saved.value).Some? ==> c == CartOfJson(saved.value).value
  {
    if saved.None? then map[]
    else match CartOfJson(saved.value)
      case Some(c) => c
      case None => map[]
  }

  /** Saving a cart, then reading the record back, restores it. */
  lemma StoredCartRoundTrip(c: Cart)
    ensures StoredCart(Some(CartJson(c))) == c
  {
    CartJsonRoundTrip(c);
  }

  /** The browser's `localStorage`, holding parsed JSON values. */
  class LocalStorage {
    var items: map<string, Json>

    constructor()
      ensures items == map[]
    {
      items := map[];
    }

    /** `getItem(key)`. */
    function GetItem(key: string): (v: Option<Json>)
      reads this
      ensures v.Some? <==> key in items
      ensures v.Some? ==> v.value == items[key]
    {
      if key in items then Some(items[key]) else None
    }

    /** `setItem(key, value)`. */
    method SetItem(key: string, value: Json)
      modifies this
      ensures items == old(items)[key := value]
    {
      items := items[key := value];
    }

    /** `removeItem(key)`. */
    method RemoveItem(key: string)
      modifies this
      ensures items == old(items) - {key}
    {
      items := items - {key};
    }
  }

  // ---------------------------------------------------------------------------
  // calculateTotal (ShoppingCartScreen.tsx:70-74)

  function LineTotal(l: CartLine): int
  {
    l.price * l.quantity
  }

  ghost function Pick(keys: set<ObjectId>): (k: ObjectId)
    requires keys != {}
    ensures k in keys
  {
    var k :| k in keys; k
  }

  /** `Object.values(cart).reduce((t, p) => t + p.price * p.quantity, 0)`: the sum over
      every line, taken here in an arbitrary key order. */
  ghost function CartTotal(c: Cart): int
    decreases |c.Keys|
  {
    if c == map[] then 0
    else
      var k := Pick(c.Keys);
      assert (c - {k}).Keys == c.Keys - {k};
      LineTotal(c[k]) + CartTotal(c - {k})
  }

  /** The total does not depend on the order the lines are visited in: any one line
      can be taken out first. */
  lemma {:induction false} CartTotalRemove(c: Cart, k: ObjectId)
    requires k in c
    ensures CartTotal(c) == LineTotal(c[k]) + CartTotal(c - {k})
    decreases |c.Keys|
  {
    var j := Pick(c.Keys);
    if j != k {
      assert (c - {j}).Keys == c.Keys - {j};
      assert (c - {k}).Keys == c.Keys - {k};
      CartTotalRemove(c - {j}, k);
      CartTotalRemove(c - {k}, j);
      assert (c - {j}) - {k} == (c - {k}) - {j};
    }
  }

  /** Replacing or adding one line changes the total by that line alone. */
  lemma CartTotalUpdate(c: Cart, k: ObjectId, l: CartLine)
    ensures CartTotal(c[k := l]) == CartTotal(c) - (if k in c then LineTotal(c[k]) else 0) + LineTotal(l)
  {
    CartTotalRemove(c[k := l], k);
    assert c[k := l] - {k} == c - {k};
    if k in c {
      CartTotalRemove(c, k);
    } else {
      assert c - {k} == c;
    }
  }

  /** The empty cart costs nothing. */
  lemma CartTotalEmpty()
    ensures CartTotal(map[]) == 0
  {
  }

  /** Two of A at 5.00 and one of B at 10.00 cost 20.00. */
  lemma CartTotalExample()
    ensures CartTotal(map["A" := CartLine("A", "a", 500, 9, 2), "B" := CartLine("B", "b", 1000, 9, 1)]) == 2000
  {
    var b := map["B" := CartLine("B", "b", 1000, 9, 1)];
    CartTotalUpdate(b, "A", CartLine("A", "a", 500, 9, 2));
    CartTotalUpdate(map[], "B", CartLine("B", "b", 1000, 9, 1));
    assert b == map[]["B" := CartLine("B", "b", 1000, 9, 1)];
    assert map["A" := CartLine("A", "a", 500, 9, 2), "B" := CartLine("B", "b", 1000, 9, 1)] == b["A" := CartLine("A", "a", 500, 9, 2)];
  }

  // ---------------------------------------------------------------------------
  // addToCart (ProductsScreen.tsx:64-86)

  /** The line `addToCart(p)` writes: a fresh snapshot of `p`, one more than before but
      never more than `p.stock` (`undefined` and a quantity of 0 both count as 0). */
  function AddLine(c: Cart, p: ProductView): (line: CartLine)
    ensures line.id == p.id && line.name == p.name && line.price == p.price && line.stock == p.stock
    ensures line.quantity <= p.stock
    ensures line.quantity == Min((if p.id in c then c[p.id].quantity else 0) + 1, p.stock)
  {
    var before := if p.id in c && c[p.id].quantity != 0 then c[p.id].quantity else 0;
    CartLine(p.id, p.name, p.price, p.stock, Min(before + 1, p.stock))
  }

  function Add(c: Cart, p: ProductView): (r: Cart)
    ensures r.Keys == c.Keys + {p.id}
    ensures r[p.id] == AddLine(c, p)
    ensures forall k :: k in c && k != p.id ==> r[k] == c[k]
  {
    c[p.id := AddLine(c, p)]
  }

  /** With the product in stock, a line just added holds between 1 and the stock. */
  lemma AddWithinStock(c: Cart, p: ProductView)
    requires p.stock >= 1
    requires p.id in c ==> c[p.id].quantity >= 0
    ensures 1 <= Add(c, p)[p.id].quantity <= p.stock
  {
  }

  /** Adding `n` times from a line within stock gives `min(old + n, stock)`: the
      quantity saturates at the stock and stays there. */
  function AddTimes(c: Cart, p: ProductView, n: nat): Cart
    decreases n
  {
    if n == 0 then c else AddTimes(Add(c, p), p, n - 1)
  }

  lemma {:induction false} AddSaturates(c: Cart, p: ProductView, n: nat)
    requires p.stock >= 1
    requires p.id in c ==> 0 <= c[p.id].quantity <= p.stock
    ensures var before := if p.id in c then c[p.id].quantity else 0;
      && (n >= 1 ==> p.id in AddTimes(c, p, n))
      && (n >= 1 ==> AddTimes(c, p, n)[p.id].quantity == Min(before + n, p.stock))
      && forall k :: k in c && k != p.id ==> k in AddTimes(c, p, n) && AddTimes(c, p, n)[k] == c[k]
    decreases n
  {
    if n >= 1 {
      var c1 := Add(c, p);
      AddSaturates(c1, p, n - 1);
      if n - 1 >= 1 {
        assert AddTimes(c1, p, n - 1)[p.id].quantity == Min(c1[p.id].quantity + n - 1, p.stock);
      }
    }
  }

  /** Without the disabled button nothing stops a product out of stock from entering the
      cart with quantity 0. */
  lemma AddOutOfStock(c: Cart, p: ProductView)
    requires p.stock == 0
    requires p.id in c ==> c[p.id].quantity >= 0
    ensures Add(c, p)[p.id].quantity == 0
  {
  }

  // ---------------------------------------------------------------------------
  // handleQuantityChange (ShoppingCartScreen.tsx:54-63)

  /** `handleQuantityChange(p, n)`: 0 removes the line, any other number replaces its
      quantity as it is, without bounds. None where `p` has no line and the handler
      throws on `updatedProducts[p._id].quantity`. */
  function SetQuantity(c: Cart, id: ObjectId, n: int): (r: Option<Cart>)
    ensures r.Some? <==> id in c
    ensures r.Some? && n == 0 ==> r.value == c - {id}
    ensures r.Some? && n != 0 ==> r.value.Keys == c.Keys && r.value[id] == c[id].(quantity := n)
    ensures r.Some? ==> forall k :: k in c && k != id ==> k in r.value && r.value[k] == c[k]
  {
    if id !in c then None
    else if n == 0 then Some(c - {id})
    else Some(c[id := c[id].(quantity := n)])
  }

  /** A quantity change moves the total by the line's price times the change. */
  lemma SetQuantityTotal(c: Cart, id: ObjectId, n: int)
    requires id in c
    ensures CartTotal(SetQuantity(c, id, n).value) == CartTotal(c) + c[id].price * (n - c[id].quantity)
  {
    var price, q := c[id].price, c[id].quantity;
    assert price * (n - q) == price * n - price * q;
    if n == 0 {
      CartTotalRemove(c, id);
    } else {
      CartTotalUpdate(c, id, c[id].(quantity := n));
    }
  }
}
