/** The order ledger of the API (main.py): `create_order` and `cancel_order` over the
    `products` and `orders` collections, each run as one MongoDB transaction. The
    collections are maps from ObjectId to document; a transaction works on its own
    copy of the products and only a commit makes that copy the collection. */
module Ledger {
  import opened Common
  import opened Schema

  /** A reply of `create_order` or `cancel_order`: the status code and, when the body
      is `{"error": ...}`, its message. */
  datatype Reply = Reply(status: int, error: Option<string>)

  function BadRequest(message: string): Reply
  {
    Reply(400, Some(message))
  }

  const Created := Reply(201, None)
  const NoContent := Reply(204, None)
  /** The generic `except` branch of `create_order`. */
  const CreateInternalError := Reply(500, Some("Internal Server Error."))
  /** Flask's 500 handler, reached when `cancel_order` raises (it has no `try`). */
  const UnhandledError := Reply(500, Some("Internal Server Error"))
  /** What `create_order` answers for any pymongo WriteError. */
  const WrongEmail := "Wrong email format."

  type Products = map<ObjectId, Product>
  type Orders = map<ObjectId, Order>

  predicate ValidProducts(ps: Products)
  {
    forall k :: k in ps ==> ValidProduct(ps[k])
  }

  predicate ValidOrders(os: Orders)
  {
    forall k :: k in os ==> ValidOrder(os[k])
  }

  /** The outcome of one request: the reply and both collections afterwards. */
  datatype Effect = Effect(reply: Reply, products: Products, orders: Orders)

  // ---------------------------------------------------------------------------
  // Request body checks (main.py:55-81)

  /** Python's `key in x` on a parsed JSON value; None where Python raises TypeError. */
  function PyIn(key: string, x: Json): Option<bool>
  {
    match x
    case JObj(m) => Some(key in m)
    case JArr(xs) => Some(JStr(key) in xs)
    case JStr(s) => Some(Contains(s, key))
    case _ => None
  }

  datatype BodyCheck = BodyOk(email: Json, items: seq<Json>) | BodyRejected(reply: Reply)

  /** A body that reaches the transaction: an object with `email` and a non-empty
      `products` array. */
  predicate WellFormedBody(m: map<string, Json>)
  {
    "email" in m && "products" in m && m["products"].JArr? && m["products"].items != []
  }

  /** The checks `create_order` makes before it touches the database. A body that is
      not JSON makes `get_json` raise, which the generic `except` turns into a 500. */
  function CheckBody(body: Option<Json>): (r: BodyCheck)
    ensures r.BodyOk? <==> body.Some? && body.value.JObj? && WellFormedBody(body.value.fields)
    ensures r.BodyOk? ==> r.email == body.value.fields["email"] && r.items == body.value.fields["products"].items
    ensures r.BodyRejected? ==> r.reply.status == 400 || r.reply == CreateInternalError
    ensures body.Some? && !Truthy(body.value) ==> r == BodyRejected(BadRequest("Missing JSON body."))
    ensures body.Some? && body.value.JObj? && body.value.fields != map[] && "email" !in body.value.fields ==>
              r == BodyRejected(BadRequest("Missing required field - email"))
    ensures body.Some? && body.value.JObj? && "email" in body.value.fields && "products" !in body.value.fields ==>
              r == BodyRejected(BadRequest("Missing required field - products"))
    ensures body.Some? && body.value.JObj? && "email" in body.value.fields && "products" in body.value.fields ==>
              (!body.value.fields["products"].JArr? ==> r == BodyRejected(BadRequest("products must be an array"))) &&
              (body.value.fields["products"] == JArr([]) ==> r == BodyRejected(BadRequest("products array can not be empty")))
  {
    match body
    case None => BodyRejected(CreateInternalError)
    case Some(j) =>
      if !Truthy(j) then BodyRejected(BadRequest("Missing JSON body."))
      else if PyIn("email", j).None? then BodyRejected(CreateInternalError)
      else if !PyIn("email", j).value then BodyRejected(BadRequest("Missing required field - email"))
      else if !PyIn("products", j).value then BodyRejected(BadRequest("Missing required field - products"))
      else if !j.JObj? then BodyRejected(CreateInternalError)  // `request_json["email"]` on a list or string
      else
        var products := j.fields["products"];
        if !products.JArr? then BodyRejected(BadRequest("products must be an array"))
        else if products.items == [] then BodyRejected(BadRequest("products array can not be empty"))
        else BodyOk(j.fields["email"], products.items)
  }

  // ---------------------------------------------------------------------------
  // Item checks and one step of the transaction (main.py:92-152)

  /** A request item that passed the checks of main.py:94-120. `fromBool` records a
      quantity given as JSON `true`, which Python's `isinstance(_, int)` accepts. */
  datatype Item = Item(id: ObjectId, quantity: int, fromBool: bool)

  /** The value of a JSON value that is an instance of Python's `int` (`bool` is one). */
  function PyInt(j: Json): Option<int>
  {
    match j
    case JInt(i) => Some(i)
    case JBool(b) => Some(if b then 1 else 0)
    case _ => None
  }

  predicate WellFormedItem(j: Json)
  {
    && j.JObj? && "id" in j.fields && "quantity" in j.fields
    && j.fields["id"].JStr? && IsObjectIdHex(j.fields["id"].s)
    && PyInt(j.fields["quantity"]).Some? && PyInt(j.fields["quantity"]).value >= 1
  }

  function CheckItem(j: Json): (r: Result<Item, Reply>)
    ensures r.Ok? <==> WellFormedItem(j)
    ensures r.Ok? ==> r.value.quantity >= 1 && r.value.id == ToObjectId(j.fields["id"].s)
                      && r.value.fromBool == j.fields["quantity"].JBool?
    ensures r.Err? ==> r.error.status == 400
  {
    if !j.JObj? || "id" !in j.fields || "quantity" !in j.fields then
      Err(BadRequest("Each product must be an object with 'id' and 'quantity'"))
    else if !j.fields["id"].JStr? || !IsObjectIdHex(j.fields["id"].s) then
      Err(BadRequest("product's id must be hex string"))
    else
      var q := PyInt(j.fields["quantity"]);
      if q.None? || q.value < 1 then Err(BadRequest("product's quantity must be positive number"))
      else Ok(Item(ToObjectId(j.fields["id"].s), q.value, j.fields["quantity"].JBool?))
  }

  /** The `$inc` of `create_order` (`stock: -q, units_sold: q`); `cancel_order` applies it with `-q`. */
  function Moved(p: Product, q: int): (r: Product)
    ensures r.stock + r.unitsSold == p.stock + p.unitsSold
    ensures r.name == p.name && r.price == p.price
  {
    p.(stock := p.stock - q, unitsSold := p.unitsSold + q)
  }

  /** One pass of the loop body of `create_order` on the session's view `tx`. A quantity
      given as `true` passes every check, but `$inc` with a boolean makes the update
      raise a WriteError, which `create_order` reports as a wrong email. */
  function PlaceItem(tx: Products, j: Json): (r: Result<(Products, Line), Reply>)
    ensures r.Err? ==> r.error.status == 400
    ensures CheckItem(j).Err? ==> r == Err(CheckItem(j).error)
    ensures CheckItem(j).Ok? && CheckItem(j).value.id !in tx ==>
              r == Err(BadRequest("product with given id does not exist"))
    ensures CheckItem(j).Ok? && CheckItem(j).value.id in tx && tx[CheckItem(j).value.id].stock < CheckItem(j).value.quantity ==>
              r == Err(BadRequest("required number of products is currently not in stock"))
    ensures (CheckItem(j).Ok? && CheckItem(j).value.id in tx && CheckItem(j).value.fromBool
             && tx[CheckItem(j).value.id].stock >= CheckItem(j).value.quantity) ==> r == Err(BadRequest(WrongEmail))
    ensures r.Ok? <==>
              (CheckItem(j).Ok? && CheckItem(j).value.id in tx
               && tx[CheckItem(j).value.id].stock >= CheckItem(j).value.quantity && !CheckItem(j).value.fromBool)
    ensures r.Ok? ==> var it := CheckItem(j).value;
              && r.value.0 == tx[it.id := Moved(tx[it.id], it.quantity)]
              && r.value.1 == Line(it.id, tx[it.id].name, tx[it.id].price, it.quantity)
              && r.value.0.Keys == tx.Keys && r.value.0[it.id].stock >= 0
  {
    match CheckItem(j)
    case Err(e) => Err(e)
    case Ok(it) =>
      if it.id !in tx then Err(BadRequest("product with given id does not exist"))
      else if tx[it.id].stock < it.quantity then
        Err(BadRequest("required number of products is currently not in stock"))
      else if it.fromBool then Err(BadRequest(WrongEmail))
      else
        var line := Line(it.id, tx[it.id].name, tx[it.id].price, it.quantity);
        Ok((tx[it.id := Moved(tx[it.id], it.quantity)], line))
  }

  /** The loop of `create_order` from some point on: `tx` is the session's view of the
      products and `lines` the order lines built so far. */
  function Place(tx: Products, lines: seq<Line>, items: seq<Json>): (r: Result<(Products, seq<Line>), Reply>)
    ensures r.Err? ==> r.error.status == 400
    decreases |items|
  {
    if items == [] then Ok((tx, lines))
    else
      match PlaceItem(tx, items[0])
      case Err(e) => Err(e)
      case Ok(step) => Place(step.0, lines + [step.1], items[1..])
  }

  /** `sum(price * quantity)` over the order lines. */
  function OrderTotal(lines: seq<Line>): int
  {
    if lines == [] then 0 else lines[0].price * lines[0].quantity + OrderTotal(lines[1..])
  }

  /** The whole of `create_order`. `newId` is the `_id` MongoDB gives the new order and
      `now` the `created_at` timestamp. */
  function CreateOrderEffect(products: Products, orders: Orders, body: Option<Json>, newId: ObjectId, now: string): (r: Effect)
    ensures r.reply != Created ==> r.products == products && r.orders == orders
    ensures r.reply.status in {201, 400, 500}
    ensures r.reply == Created ==> newId in r.orders && r.orders == orders[newId := r.orders[newId]] && r.orders[newId].status == Unpaid
    ensures body.None? ==> r == Effect(CreateInternalError, products, orders)
  {
    match CheckBody(body)
    case BodyRejected(reply) => Effect(reply, products, orders)
    case BodyOk(email, items) =>
      match Place(products, [], items)
      case Err(reply) => Effect(reply, products, orders)
      case Ok(done) =>
        var (tx, lines) := done;
        // insert_one: a non-string email or any other schema violation is a WriteError
        if !email.JStr? then Effect(BadRequest(WrongEmail), products, orders)
        else
          var order := Order(email.s, now, lines, Unpaid, OrderTotal(lines));
          if !ValidOrder(order) then Effect(BadRequest(WrongEmail), products, orders)
          else Effect(Created, tx, orders[newId := order])
  }

  // ---------------------------------------------------------------------------
  // cancel_order (main.py:251-293)

  /** The loop of `cancel_order`: give each line back to its product. An update that would
      break the products validator (negative `units_sold`) raises, aborting the transaction.
      A line whose product no longer exists matches nothing and changes nothing. */
  function Restock(ps: Products, lines: seq<Line>): (r: Result<Products, Reply>)
    ensures r.Err? ==> r.error == UnhandledError
    decreases |lines|
  {
    if lines == [] then Ok(ps)
    else
      var l := lines[0];
      if l.id in ps then
        var p := Moved(ps[l.id], -l.quantity);
        if !ValidProduct(p) then Err(UnhandledError)
        else Restock(ps[l.id := p], lines[1..])
      else Restock(ps, lines[1..])
  }

  function CancelOrderEffect(products: Products, orders: Orders, orderId: string): (r: Effect)
    ensures r.reply != NoContent ==> r.products == products && r.orders == orders
    ensures r.reply == NoContent <==>
              IsObjectIdHex(orderId) && ToObjectId(orderId) in orders
              && orders[ToObjectId(orderId)].status == Unpaid
              && Restock(products, orders[ToObjectId(orderId)].lines).Ok?
    ensures !IsObjectIdHex(orderId) ==> r.reply == BadRequest("Invalid order ID")
    ensures IsObjectIdHex(orderId) && ToObjectId(orderId) !in orders ==> r.reply.status == 404
    ensures IsObjectIdHex(orderId) && ToObjectId(orderId) in orders && orders[ToObjectId(orderId)].status == Cancelled ==>
              r.reply == BadRequest("Order is already cancelled.")
    ensures r.reply == NoContent ==>
              var id := ToObjectId(orderId);
              r.orders == orders[id := orders[id].(status := Cancelled)]
  {
    if !IsObjectIdHex(orderId) then Effect(BadRequest("Invalid order ID"), products, orders)
    else
      var id := ToObjectId(orderId);
      if id !in orders then Effect(Reply(404, Some("Order with given id not found")), products, orders)
      else if orders[id].status == Cancelled then Effect(BadRequest("Order is already cancelled."), products, orders)
      else if orders[id].status != Unpaid then Effect(BadRequest("Can not cancel order in this state."), products, orders)
      else
        match Restock(products, orders[id].lines)
        case Err(reply) => Effect(reply, products, orders)
        case Ok(ps) => Effect(NoContent, ps, orders[id := orders[id].(status := Cancelled)])
  }

  // ---------------------------------------------------------------------------
  // The stock moves, line by line

  /** How many units of product `k` the lines take. */
  function QtyOf(lines: seq<Line>, k: ObjectId): int
  {
    if lines == [] then 0 else (if lines[0].id == k then lines[0].quantity else 0) + QtyOf(lines[1..], k)
  }

  /** Pushing `lines` through `$inc` one after another, taking units out of stock or,
      with `back`, giving them back. */
  function MoveLines(ps: Products, lines: seq<Line>, back: bool): Products
    decreases |lines|
  {
    if lines == [] then ps
    else
      var l := lines[0];
      var ps1 := if l.id in ps then ps[l.id := Moved(ps[l.id], if back then -l.quantity else l.quantity)] else ps;
      MoveLines(ps1, lines[1..], back)
  }

  /** The moves of a run of lines add up per product: each product is moved by the total
      quantity the lines name for it, and no product appears or disappears. */
  lemma {:induction false} MoveLinesAt(ps: Products, lines: seq<Line>, back: bool, k: ObjectId)
    ensures MoveLines(ps, lines, back).Keys == ps.Keys
    ensures k in ps ==> MoveLines(ps, lines, back)[k] == Moved(ps[k], if back then -QtyOf(lines, k) else QtyOf(lines, k))
    decreases |lines|
  {
    if lines != [] {
      var l := lines[0];
      var ps1 := if l.id in ps then ps[l.id := Moved(ps[l.id], if back then -l.quantity else l.quantity)] else ps;
      MoveLinesAt(ps1, lines[1..], back, k);
    }
  }

  /** Giving back exactly what was taken restores every product. */
  lemma MoveLinesInverse(ps: Products, lines: seq<Line>)
    ensures MoveLines(MoveLines(ps, lines, false), lines, true) == ps
  {
    var out := MoveLines(ps, lines, false);
    var back := MoveLines(out, lines, true);
    forall k | k in ps ensures k in back && back[k] == ps[k] {
      MoveLinesAt(ps, lines, false, k);
      MoveLinesAt(out, lines, true, k);
    }
    MoveLinesAt(ps, lines, false, "");
    MoveLinesAt(out, lines, true, "");
  }

  lemma {:induction false} QtyOfAppend(a: seq<Line>, b: seq<Line>, k: ObjectId)
    ensures QtyOf(a + b, k) == QtyOf(a, k) + QtyOf(b, k)
    decreases |a|
  {
    if a != [] {
      assert (a + b)[0] == a[0];
      assert (a + b)[1..] == a[1..] + b;
      QtyOfAppend(a[1..], b, k);
    } else {
      assert a + b == b;
    }
  }

  lemma {:induction false} MoveLinesAppend(ps: Products, a: seq<Line>, b: seq<Line>, back: bool)
    ensures MoveLines(ps, a + b, back) == MoveLines(MoveLines(ps, a, back), b, back)
    decreases |a|
  {
    if a != [] {
      var l := a[0];
      var ps1 := if l.id in ps then ps[l.id := Moved(ps[l.id], if back then -l.quantity else l.quantity)] else ps;
      assert (a + b)[0] == a[0];
      assert (a + b)[1..] == a[1..] + b;
      MoveLinesAppend(ps1, a[1..], b, back);
    } else {
      assert a + b == b;
    }
  }

  // ---------------------------------------------------------------------------
  // What a successful transaction of create_order did

  /** One order line per request item, in request order, each a copy of the product's
      name and price as the transaction found them and the requested quantity. */
  predicate LinesFor(ps: Products, items: seq<Json>, lines: seq<Line>)
  {
    && |lines| == |items|
    && forall i :: 0 <= i < |items| ==>
         && WellFormedItem(items[i])
         && lines[i].id == ToObjectId(items[i].fields["id"].s)
         && lines[i].id in ps
         && lines[i].name == ps[lines[i].id].name
         && lines[i].price == ps[lines[i].id].price
         && lines[i].quantity == PyInt(items[i].fields["quantity"]).value
         && items[i].fields["quantity"].JInt?
  }

  /** The first pass of a successful loop run. */
  lemma PlaceStep(tx0: Products, lines0: seq<Line>, items: seq<Json>)
    requires items != [] && Place(tx0, lines0, items).Ok?
    ensures PlaceItem(tx0, items[0]).Ok?
    ensures var (tx1, line) := PlaceItem(tx0, items[0]).value;
      Place(tx0, lines0, items) == Place(tx1, lines0 + [line], items[1..])
  {
  }

  /** A successful run of the loop appends one line per item and leaves the session's
      products as the old ones with each new line's quantity taken out of stock. */
  lemma {:induction false} PlaceMoves(tx0: Products, lines0: seq<Line>, items: seq<Json>)
    requires Place(tx0, lines0, items).Ok?
    ensures var (tx, lines) := Place(tx0, lines0, items).value;
      && |lines| == |lines0| + |items| && lines[..|lines0|] == lines0
      && tx == MoveLines(tx0, lines[|lines0|..], false)
    decreases |items|
  {
    if items != [] {
      PlaceStep(tx0, lines0, items);
      var (tx1, line) := PlaceItem(tx0, items[0]).value;
      PlaceMoves(tx1, lines0 + [line], items[1..]);
      var (tx, lines) := Place(tx0, lines0, items).value;
      var mine := lines[|lines0|..];
      assert mine[0] == line;
      assert mine[1..] == lines[|lines0| + 1..];
      assert lines[..|lines0|] == (lines0 + [line])[..|lines0|];
    }
  }

  /** Every product keeps at least as much stock as the new lines take from it. */
  lemma {:induction false} PlaceWithinStock(tx0: Products, lines0: seq<Line>, items: seq<Json>, k: ObjectId)
    requires Place(tx0, lines0, items).Ok? && k in tx0 && tx0[k].stock >= 0
    ensures var (tx, lines) := Place(tx0, lines0, items).value;
      |lines| >= |lines0| && QtyOf(lines[|lines0|..], k) <= tx0[k].stock
    decreases |items|
  {
    PlaceMoves(tx0, lines0, items);
    if items != [] {
      PlaceStep(tx0, lines0, items);
      var (tx1, line) := PlaceItem(tx0, items[0]).value;
      assert k in tx1;
      PlaceWithinStock(tx1, lines0 + [line], items[1..], k);
      PlaceMoves(tx1, lines0 + [line], items[1..]);
      var (tx, lines) := Place(tx0, lines0, items).value;
      var mine := lines[|lines0|..];
      var rest := lines[|lines0| + 1..];
      assert mine[0] == line;
      assert mine[1..] == rest;
      assert QtyOf(mine, k) == (if line.id == k then line.quantity else 0) + QtyOf(rest, k);
      assert QtyOf(rest, k) <= tx1[k].stock;
      assert tx1[k].stock == tx0[k].stock - (if line.id == k then line.quantity else 0);
    }
  }

  /** The new lines are the copies of the items. */
  lemma {:induction false} PlaceLines(tx0: Products, lines0: seq<Line>, items: seq<Json>)
    requires Place(tx0, lines0, items).Ok?
    ensures var (tx, lines) := Place(tx0, lines0, items).value;
      |lines| >= |lines0| && LinesFor(tx0, items, lines[|lines0|..])
    decreases |items|
  {
    PlaceMoves(tx0, lines0, items);
    if items != [] {
      PlaceStep(tx0, lines0, items);
      var (tx1, line) := PlaceItem(tx0, items[0]).value;
      PlaceLines(tx1, lines0 + [line], items[1..]);
      PlaceMoves(tx1, lines0 + [line], items[1..]);
      var (tx, lines) := Place(tx0, lines0, items).value;
      var mine := lines[|lines0|..];
      var rest := lines[|lines0| + 1..];
      assert mine[0] == line;
      assert mine[1..] == rest;
      assert tx1.Keys == tx0.Keys;
      assert forall k :: k in tx1 ==> tx1[k].name == tx0[k].name && tx1[k].price == tx0[k].price;
      forall i | 0 < i < |items|
        ensures && WellFormedItem(items[i])
                && mine[i].id == ToObjectId(items[i].fields["id"].s)
                && mine[i].id in tx0
                && mine[i].name == tx0[mine[i].id].name
                && mine[i].price == tx0[mine[i].id].price
                && mine[i].quantity == PyInt(items[i].fields["quantity"]).value
                && items[i].fields["quantity"].JInt?
      {
        assert mine[i] == rest[i - 1] && items[i] == items[1..][i - 1];
      }
    }
  }

  // ---------------------------------------------------------------------------
  // create_order: what a commit contains, conservation, validity

  lemma {:induction false} QtyOfNonNegative(lines: seq<Line>, k: ObjectId)
    requires forall i :: 0 <= i < |lines| ==> lines[i].quantity >= 0
    ensures QtyOf(lines, k) >= 0
    decreases |lines|
  {
    if lines != [] {
      QtyOfNonNegative(lines[1..], k);
    }
  }

  /** A committed order holds one line per request item copied from the products as the
      transaction found them, its total is the sum over those lines, and the products
      are the old ones with the lines taken out of stock. */
  lemma CreateCommitted(products: Products, orders: Orders, body: Option<Json>, newId: ObjectId, now: string)
    requires CreateOrderEffect(products, orders, body, newId, now).reply == Created
    ensures var r := CreateOrderEffect(products, orders, body, newId, now);
      var o := r.orders[newId];
      && CheckBody(body).BodyOk?
      && CheckBody(body).email == JStr(o.email)
      && LinesFor(products, CheckBody(body).items, o.lines)
      && o.status == Unpaid && o.createdAt == now
      && o.totalPrice == OrderTotal(o.lines)
      && ValidOrder(o)
      && r.products == MoveLines(products, o.lines, false)
  {
    var items := CheckBody(body).items;
    PlaceMoves(products, [], items);
    PlaceLines(products, [], items);
    var lines := Place(products, [], items).value.1;
    assert lines[0..] == lines;
  }

  /** `create_order` keeps the set of products and, for each one, its name, its price and
      `stock + units_sold`. */
  lemma CreateConserves(products: Products, orders: Orders, body: Option<Json>, newId: ObjectId, now: string)
    ensures var r := CreateOrderEffect(products, orders, body, newId, now);
      && r.products.Keys == products.Keys
      && forall k :: k in products ==>
           && r.products[k].stock + r.products[k].unitsSold == products[k].stock + products[k].unitsSold
           && r.products[k].name == products[k].name && r.products[k].price == products[k].price
  {
    var r := CreateOrderEffect(products, orders, body, newId, now);
    if r.reply == Created {
      CreateCommitted(products, orders, body, newId, now);
      var lines := r.orders[newId].lines;
      MoveLinesAt(products, lines, false, "");
      forall k | k in products
        ensures r.products[k].stock + r.products[k].unitsSold == products[k].stock + products[k].unitsSold
        ensures r.products[k].name == products[k].name && r.products[k].price == products[k].price
      {
        MoveLinesAt(products, lines, false, k);
      }
    }
  }

  /** Starting from collections the validators accept, `create_order` leaves collections
      they accept: in particular no stock becomes negative. */
  lemma CreateKeepsValid(products: Products, orders: Orders, body: Option<Json>, newId: ObjectId, now: string)
    requires ValidProducts(products) && ValidOrders(orders)
    ensures var r := CreateOrderEffect(products, orders, body, newId, now);
      ValidProducts(r.products) && ValidOrders(r.orders)
  {
    var r := CreateOrderEffect(products, orders, body, newId, now);
    if r.reply == Created {
      CreateCommitted(products, orders, body, newId, now);
      var items := CheckBody(body).items;
      var lines := r.orders[newId].lines;
      forall k | k in r.products ensures ValidProduct(r.products[k]) {
        MoveLinesAt(products, lines, false, k);
        PlaceWithinStock(products, [], items, k);
        assert Place(products, [], items).value.1[0..] == lines;
        QtyOfNonNegative(lines, k);
      }
    }
  }

  // ---------------------------------------------------------------------------
  // cancel_order: restocking, conservation, validity, terminal status

  /** A restock that goes through is the line-by-line return of every line and leaves
      every product valid. */
  lemma {:induction false} RestockMoves(ps: Products, lines: seq<Line>)
    requires Restock(ps, lines).Ok?
    ensures Restock(ps, lines).value == MoveLines(ps, lines, true)
    ensures ValidProducts(ps) ==> ValidProducts(Restock(ps, lines).value)
    decreases |lines|
  {
    if lines != [] {
      var l := lines[0];
      if l.id in ps {
        RestockMoves(ps[l.id := Moved(ps[l.id], -l.quantity)], lines[1..]);
      } else {
        RestockMoves(ps, lines[1..]);
      }
    }
  }

  /** The restock goes through whenever every product has sold at least the units the
      lines give back to it. */
  lemma {:induction false} RestockSucceeds(ps: Products, lines: seq<Line>)
    requires forall i :: 0 <= i < |lines| ==> lines[i].quantity >= 0
    requires forall k :: k in ps ==> ps[k].price >= 0 && ps[k].stock >= 0 && ps[k].unitsSold >= QtyOf(lines, k)
    ensures Restock(ps, lines).Ok?
    decreases |lines|
  {
    if lines != [] {
      var l := lines[0];
      var rest := lines[1..];
      forall k | k in ps ensures QtyOf(lines, k) == (if l.id == k then l.quantity else 0) + QtyOf(rest, k) {
      }
      if l.id in ps {
        var p := Moved(ps[l.id], -l.quantity);
        QtyOfNonNegative(rest, l.id);
        assert ValidProduct(p);
        RestockSucceeds(ps[l.id := p], rest);
      } else {
        RestockSucceeds(ps, rest);
      }
    }
  }

  /** A successful cancel gives every line of the order back to its product. */
  lemma CancelRestocks(products: Products, orders: Orders, orderId: string)
    requires CancelOrderEffect(products, orders, orderId).reply == NoContent
    ensures var r := CancelOrderEffect(products, orders, orderId);
      r.products == MoveLines(products, orders[ToObjectId(orderId)].lines, true)
  {
    RestockMoves(products, orders[ToObjectId(orderId)].lines);
  }

  /** `cancel_order` keeps the set of products and, for each one, its name, its price and
      `stock + units_sold`. */
  lemma CancelConserves(products: Products, orders: Orders, orderId: string)
    ensures var r := CancelOrderEffect(products, orders, orderId);
      && r.products.Keys == products.Keys
      && forall k :: k in products ==>
           && r.products[k].stock + r.products[k].unitsSold == products[k].stock + products[k].unitsSold
           && r.products[k].name == products[k].name && r.products[k].price == products[k].price
  {
    var r := CancelOrderEffect(products, orders, orderId);
    if r.reply == NoContent {
      CancelRestocks(products, orders, orderId);
      var lines := orders[ToObjectId(orderId)].lines;
      MoveLinesAt(products, lines, true, "");
      forall k | k in products
        ensures r.products[k].stock + r.products[k].unitsSold == products[k].stock + products[k].unitsSold
        ensures r.products[k].name == products[k].name && r.products[k].price == products[k].price
      {
        MoveLinesAt(products, lines, true, k);
      }
    }
  }

  lemma CancelKeepsValid(products: Products, orders: Orders, orderId: string)
    requires ValidProducts(products) && ValidOrders(orders)
    ensures var r := CancelOrderEffect(products, orders, orderId);
      ValidProducts(r.products) && ValidOrders(r.orders)
  {
    var r := CancelOrderEffect(products, orders, orderId);
    if r.reply == NoContent {
      RestockMoves(products, orders[ToObjectId(orderId)].lines);
    }
  }

  /** A cancelled order stays cancelled, whatever request comes next; a new order never
      replaces an existing one because MongoDB gives it a fresh id. */
  lemma CancelledTerminal(products: Products, orders: Orders, k: ObjectId, body: Option<Json>, newId: ObjectId, now: string, orderId: string)
    requires k in orders && orders[k].status == Cancelled && newId !in orders
    ensures var r := CreateOrderEffect(products, orders, body, newId, now);
      k in r.orders && r.orders[k] == orders[k]
    ensures var r := CancelOrderEffect(products, orders, orderId);
      k in r.orders && r.orders[k] == orders[k]
  {
  }

  /** Cancelling a cancelled order is refused and changes nothing. */
  lemma CancelTwice(products: Products, orders: Orders, orderId: string)
    requires CancelOrderEffect(products, orders, orderId).reply == NoContent
    ensures var r := CancelOrderEffect(products, orders, orderId);
      CancelOrderEffect(r.products, r.orders, orderId) == Effect(BadRequest("Order is already cancelled."), r.products, r.orders)
  {
  }

  /** Cancelling the order just created restores every product exactly and leaves the
      order in the collection, cancelled. */
  lemma CancelUndoesCreate(products: Products, orders: Orders, body: Option<Json>, newId: ObjectId, now: string)
    requires ValidProducts(products) && ValidOrders(orders) && IsCanonicalId(newId) && newId !in orders
    requires CreateOrderEffect(products, orders, body, newId, now).reply == Created
    ensures var c := CreateOrderEffect(products, orders, body, newId, now);
      var d := CancelOrderEffect(c.products, c.orders, newId);
      && d.reply == NoContent
      && d.products == products
      && d.orders == orders[newId := c.orders[newId].(status := Cancelled)]
  {
    var c := CreateOrderEffect(products, orders, body, newId, now);
    CreateCommitted(products, orders, body, newId, now);
    CreateKeepsValid(products, orders, body, newId, now);
    var o := c.orders[newId];
    assert ValidOrder(o);
    assert ToObjectId(newId) == newId;
    TakenCanReturn(products, o.lines);
  }

  /** Units just taken out of valid products can always be given back, and giving them
      back restores the products. */
  lemma TakenCanReturn(ps: Products, lines: seq<Line>)
    requires ValidProducts(ps) && ValidProducts(MoveLines(ps, lines, false))
    requires forall i :: 0 <= i < |lines| ==> lines[i].quantity >= 0
    ensures Restock(MoveLines(ps, lines, false), lines) == Ok(ps)
  {
    var taken := MoveLines(ps, lines, false);
    forall k | k in taken ensures taken[k].unitsSold >= QtyOf(lines, k) {
      MoveLinesAt(ps, lines, false, k);
    }
    RestockSucceeds(taken, lines);
    RestockMoves(taken, lines);
    MoveLinesInverse(ps, lines);
  }

  /** Two items for the same product are checked against the stock the first one left:
      with 3 in stock, asking twice for 2 is refused and nothing is written. */
  lemma DuplicateIdsScenario()
    ensures var id := "0123456789abcdef01234567";
      var item := JObj(map["id" := JStr(id), "quantity" := JInt(2)]);
      var body := JObj(map["email" := JStr("a@b.c"), "products" := JArr([item, item])]);
      var products := map[id := Product("Mikina", 1669, 3, 2)];
      CreateOrderEffect(products, map[], Some(body), "fedcba9876543210fedcba98", "now")
        == Effect(BadRequest("required number of products is currently not in stock"), products, map[])
  {
    var id := "0123456789abcdef01234567";
    assert IsCanonicalId(id);
    var item := JObj(map["id" := JStr(id), "quantity" := JInt(2)]);
    var products := map[id := Product("Mikina", 1669, 3, 2)];
    assert ToObjectId(id) == id;
    var tx1 := products[id := Product("Mikina", 1669, 1, 4)];
    var body := JObj(map["email" := JStr("a@b.c"), "products" := JArr([item, item])]);
    assert CheckBody(Some(body)) == BodyOk(JStr("a@b.c"), [item, item]);
    assert PlaceItem(products, item) == Ok((tx1, Line(id, "Mikina", 1669, 2)));
    assert PlaceItem(tx1, item) == Err(BadRequest("required number of products is currently not in stock"));
    assert [item, item][1..] == [item];
    assert Place(products, [], [item, item]) == Err(BadRequest("required number of products is currently not in stock"));
  }

  // ---------------------------------------------------------------------------
  // The two collections as the handlers update them

  /** The `products` and `orders` collections. Each handler works on a session copy of
      the products and writes both collections only where main.py commits. */
  class Database {
    var products: Products
    var orders: Orders

    predicate Valid()
      reads this
    {
      ValidProducts(products) && ValidOrders(orders)
    }

    constructor (products0: Products, orders0: Orders)
      requires ValidProducts(products0) && ValidOrders(orders0)
      ensures Valid() && products == products0 && orders == orders0
    {
      products := products0;
      orders := orders0;
    }

    /** `create_order` (main.py:53-177); `newId` is the id MongoDB assigns the new order. */
    method CreateOrder(body: Option<Json>, newId: ObjectId, now: string) returns (reply: Reply)
      requires Valid() && newId !in orders
      modifies this
      ensures Valid()
      ensures Effect(reply, products, orders) == CreateOrderEffect(old(products), old(orders), body, newId, now)
    {
      var checked := CheckBody(body);
      if checked.BodyRejected? {
        return checked.reply;
      }
      var items := checked.items;
      var tx := products;
      var lines: seq<Line> := [];
      var i := 0;
      while i < |items|
        invariant 0 <= i <= |items|
        invariant Place(products, [], items) == Place(tx, lines, items[i..])
      {
        assert items[i..][0] == items[i] && items[i..][1..] == items[i + 1..];
        var item := CheckItem(items[i]);
        if item.Err? {
          return item.error;
        }
        var id := item.value.id;
        if id !in tx {
          return BadRequest("product with given id does not exist");
        }
        var fetched := tx[id];
        if fetched.stock < item.value.quantity {
          return BadRequest("required number of products is currently not in stock");
        }
        if item.value.fromBool {
          return BadRequest(WrongEmail);
        }
        tx := tx[id := Moved(fetched, item.value.quantity)];
        lines := lines + [Line(id, fetched.name, fetched.price, item.value.quantity)];
        i := i + 1;
      }
      if !checked.email.JStr? {
        return BadRequest(WrongEmail);
      }
      var order := Order(checked.email.s, now, lines, Unpaid, OrderTotal(lines));
      if !ValidOrder(order) {
        return BadRequest(WrongEmail);
      }
      CreateKeepsValid(products, orders, body, newId, now);
      products := tx;
      orders := orders[newId := order];
      reply := Created;
    }

    /** `cancel_order` (main.py:252-293). */
    method CancelOrder(orderId: string) returns (reply: Reply)
      requires Valid()
      modifies this
      ensures Valid()
      ensures Effect(reply, products, orders) == CancelOrderEffect(old(products), old(orders), orderId)
    {
      if !IsObjectIdHex(orderId) {
        return BadRequest("Invalid order ID");
      }
      var id := ToObjectId(orderId);
      if id !in orders {
        return Reply(404, Some("Order with given id not found"));
      }
      var order := orders[id];
      if order.status == Cancelled {
        return BadRequest("Order is already cancelled.");
      }
      if order.status != Unpaid {
        return BadRequest("Can not cancel order in this state.");
      }
      var tx := products;
      var i := 0;
      while i < |order.lines|
        invariant 0 <= i <= |order.lines|
        invariant Restock(products, order.lines) == Restock(tx, order.lines[i..])
      {
        var line := order.lines[i];
        assert order.lines[i..][0] == line && order.lines[i..][1..] == order.lines[i + 1..];
        if line.id in tx {
          var p := Moved(tx[line.id], -line.quantity);
          if !ValidProduct(p) {
            return UnhandledError;
          }
          tx := tx[line.id := p];
        }
        i := i + 1;
      }
      CancelKeepsValid(products, orders, orderId);
      products := tx;
      orders := orders[id := order.(status := Cancelled)];
      reply := NoContent;
    }
  }
}
