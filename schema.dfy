/** The documents of the two MongoDB collections and the `$jsonSchema` validators
    that the database enforces on every insert and update (mongo_queries.py).
    Prices and totals are integer cents. */
module Schema {
  import opened Common

  const Unpaid := "unpaid"
  const Cancelled := "cancelled"

  /** An ObjectId, written as its canonical (lower-case) 24-digit hex string. */
  type ObjectId = string

  predicate IsHexDigit(c: char)
  {
    '0' <= c <= '9' || 'a' <= c <= 'f' || 'A' <= c <= 'F'
  }

  /** `ObjectId.is_valid(s)` for a string `s`: exactly 24 hexadecimal digits. */
  predicate IsObjectIdHex(s: string)
  {
    |s| == 24 && forall i :: 0 <= i < |s| ==> IsHexDigit(s[i])
  }

  /** The form `str(ObjectId(...))` prints: hex digits in lower case. */
  predicate IsCanonicalId(s: string)
  {
    IsObjectIdHex(s) && forall i :: 0 <= i < |s| ==> !('A' <= s[i] <= 'F')
  }

  function LowerHex(c: char): (d: char)
    ensures IsHexDigit(c) ==> IsHexDigit(d) && !('A' <= d <= 'F')
    ensures !('A' <= c <= 'F') ==> d == c
  {
    if 'A' <= c <= 'F' then (c as int - 'A' as int + 'a' as int) as char else c
  }

  /** `ObjectId(s)`: two hex strings denote the same id when they differ only in case. */
  function ToObjectId(s: string): (id: ObjectId)
    requires IsObjectIdHex(s)
    ensures IsCanonicalId(id)
    ensures IsCanonicalId(s) ==> id == s
  {
    seq(|s|, i requires 0 <= i < |s| => LowerHex(s[i]))
  }

  /** A document of the `products` collection; its `_id` is the key of the collection. */
  datatype Product = Product(name: string, price: int, stock: int, unitsSold: int)

  /** One element of an order's `products` array: a frozen copy of the product. */
  datatype Line = Line(id: ObjectId, name: string, price: int, quantity: int)

  /** A document of the `orders` collection; its `_id` is the key of the collection. */
  datatype Order = Order(email: string, createdAt: string, lines: seq<Line>, status: string, totalPrice: int)

  /** The constraints of the products validator on the typed view (mongo_queries.py:23-37). */
  predicate ValidProduct(p: Product)
  {
    p.price >= 0 && p.stock >= 0 && p.unitsSold >= 0
  }

  /** The constraints of the `items` schema of an order's `products` array. */
  predicate ValidLine(l: Line)
  {
    l.price >= 0 && l.quantity >= 1
  }

  /** The constraints of the orders validator on the typed view. */
  predicate ValidOrder(o: Order)
  {
    && MatchesEmailPattern(o.email)
    && (forall i :: 0 <= i < |o.lines| ==> ValidLine(o.lines[i]))
    && (o.status == Unpaid || o.status == Cancelled)
    && o.totalPrice >= 0
  }

  // ---------------------------------------------------------------------------
  // The email pattern `^.+@.+\..+$`

  predicate NoNewline(s: string)
  {
    forall i :: 0 <= i < |s| ==> s[i] != '\n'
  }

  /** `^.+@.+\..+$` as MongoDB's regular expressions read it: `.` is any character
      but a newline, and `$` also matches just before one final newline. */
  predicate MatchesEmailPattern(s: string)
  {
    var t := if |s| > 0 && s[|s| - 1] == '\n' then s[..|s| - 1] else s;
    NoNewline(t) && exists i, j :: 0 < i && i + 1 < j && j + 1 < |t| && AtDot(t, i, j)
  }

  /** `t` has an `@` at position `i` and a `.` at position `j`. */
  predicate AtDot(t: string, i: int, j: int)
    requires 0 <= i < |t| && 0 <= j < |t|
  {
    t[i] == '@' && t[j] == '.'
  }

  /** The shape the pattern describes: something, `@`, something, `.`, something. */
  function EmailOf(user: string, host: string, tld: string): string
  {
    user + "@" + host + "." + tld
  }

  lemma SplitAtDot(t: string, i: int, j: int)
    requires 0 < i && i + 1 < j && j + 1 < |t| && AtDot(t, i, j)
    ensures t == EmailOf(t[..i], t[i + 1..j], t[j + 1..])
  {
    assert "@" == [t[i]] && "." == [t[j]];
    assert t[..i] + [t[i]] == t[..i + 1];
    assert t[..i + 1] + t[i + 1..j] == t[..j];
    assert t[..j] + [t[j]] == t[..j + 1];
    assert t[..j + 1] + t[j + 1..] == t;
  }

  /** The index form above is the string form of the pattern: a line without
      newlines matches exactly when it is `user@host.tld` with three non-empty parts. */
  lemma EmailPatternShape(t: string)
    requires NoNewline(t)
    ensures MatchesEmailPattern(t) <==>
      exists user, host, tld :: |user| > 0 && |host| > 0 && |tld| > 0 && t == EmailOf(user, host, tld)
  {
    if MatchesEmailPattern(t) {
      EmailPatternToShape(t);
    }
    if exists user, host, tld :: |user| > 0 && |host| > 0 && |tld| > 0 && t == EmailOf(user, host, tld) {
      var user, host, tld :| |user| > 0 && |host| > 0 && |tld| > 0 && t == EmailOf(user, host, tld);
      ShapeToEmailPattern(user, host, tld);
    }
  }

  lemma EmailPatternToShape(t: string)
    requires NoNewline(t) && MatchesEmailPattern(t)
    ensures exists user, host, tld :: |user| > 0 && |host| > 0 && |tld| > 0 && t == EmailOf(user, host, tld)
  {
    if |t| > 0 { assert t[|t| - 1] != '\n'; }
    var i, j :| 0 < i && i + 1 < j && j + 1 < |t| && AtDot(t, i, j);
    SplitAtDot(t, i, j);
  }

  lemma ShapeToEmailPattern(user: string, host: string, tld: string)
    requires |user| > 0 && |host| > 0 && |tld| > 0 && NoNewline(EmailOf(user, host, tld))
    ensures MatchesEmailPattern(EmailOf(user, host, tld))
  {
    var t := EmailOf(user, host, tld);
    assert t[|t| - 1] != '\n';
    var i, j := |user|, |user| + 1 + |host|;
    assert t[i] == '@';
    assert t[j] == '.';
    assert AtDot(t, i, j);
  }

  /** A concrete address passes the pattern and one without a dot after the `@` part does not. */
  lemma EmailPatternExamples()
    ensures MatchesEmailPattern("a@b.c")
    ensures !MatchesEmailPattern("a@b")
  {
    assert AtDot("a@b.c", 1, 3);
  }

  // ---------------------------------------------------------------------------
  // The validators as written: `$jsonSchema` over BSON documents

  /** The BSON values the documents hold; a `double` price is kept in cents. */
  datatype Bson =
    | BObjectId(oid: ObjectId)
    | BString(s: string)
    | BDouble(cents: int)
    | BInt(i: int)
    | BBool(b: bool)
    | BNull
    | BArray(items: seq<Bson>)
    | BDoc(fields: map<string, Bson>)

  /** The products validator: required `_id, name, price, stock, units_sold`, no other
      field, and the types and minimums of each property (mongo_queries.py:14-39). */
  predicate ProductSchema(d: map<string, Bson>)
  {
    && d.Keys == {"_id", "name", "price", "stock", "units_sold"}
    && d["_id"].BObjectId?
    && d["name"].BString?
    && d["price"].BDouble? && d["price"].cents >= 0
    && d["stock"].BInt? && d["stock"].i >= 0
    && d["units_sold"].BInt? && d["units_sold"].i >= 0
  }

  /** The `items` schema of an order's `products` array (mongo_queries.py:71-92). */
  predicate LineSchema(b: Bson)
  {
    && b.BDoc?
    && b.fields.Keys == {"_id", "name", "price", "quantity"}
    && b.fields["_id"].BObjectId?
    && b.fields["name"].BString?
    && b.fields["price"].BDouble? && b.fields["price"].cents >= 0
    && b.fields["quantity"].BInt? && b.fields["quantity"].i >= 1
  }

  /** The orders validator (mongo_queries.py:47-104). */
  predicate OrderSchema(d: map<string, Bson>)
  {
    && d.Keys == {"_id", "email", "created_at", "products", "status", "total_price"}
    && d["_id"].BObjectId?
    && d["email"].BString? && MatchesEmailPattern(d["email"].s)
    && d["created_at"].BString?
    && d["products"].BArray? && (forall i :: 0 <= i < |d["products"].items| ==> LineSchema(d["products"].items[i]))
    && (d["status"] == BString(Unpaid) || d["status"] == BString(Cancelled))
    && d["total_price"].BDouble? && d["total_price"].cents >= 0
  }

  function ProductDocument(id: ObjectId, p: Product): map<string, Bson>
  {
    map["_id" := BObjectId(id), "name" := BString(p.name), "price" := BDouble(p.price),
        "stock" := BInt(p.stock), "units_sold" := BInt(p.unitsSold)]
  }

  function ProductOfDocument(d: map<string, Bson>): (ObjectId, Product)
    requires ProductSchema(d)
  {
    (d["_id"].oid, Product(d["name"].s, d["price"].cents, d["stock"].i, d["units_sold"].i))
  }

  function LineDocument(l: Line): Bson
  {
    BDoc(map["_id" := BObjectId(l.id), "name" := BString(l.name), "price" := BDouble(l.price),
             "quantity" := BInt(l.quantity)])
  }

  function LineOfDocument(b: Bson): Line
    requires LineSchema(b)
  {
    Line(b.fields["_id"].oid, b.fields["name"].s, b.fields["price"].cents, b.fields["quantity"].i)
  }

  function OrderDocument(id: ObjectId, o: Order): map<string, Bson>
  {
    map["_id" := BObjectId(id), "email" := BString(o.email), "created_at" := BString(o.createdAt),
        "products" := BArray(seq(|o.lines|, i requires 0 <= i < |o.lines| => LineDocument(o.lines[i]))),
        "status" := BString(o.status), "total_price" := BDouble(o.totalPrice)]
  }

  function OrderOfDocument(d: map<string, Bson>): (ObjectId, Order)
    requires OrderSchema(d)
  {
    var items := d["products"].items;
    (d["_id"].oid,
     Order(d["email"].s, d["created_at"].s,
           seq(|items|, i requires 0 <= i < |items| => LineOfDocument(items[i])),
           d["status"].s, d["total_price"].cents))
  }

  /** A typed product passes the validator exactly when `ValidProduct` holds. */
  lemma ProductSchemaIff(id: ObjectId, p: Product)
    ensures ProductSchema(ProductDocument(id, p)) <==> ValidProduct(p)
  {
    var d := ProductDocument(id, p);
    assert d.Keys == {"_id", "name", "price", "stock", "units_sold"};
  }

  /** Every document the validator admits is a typed product with nothing left over. */
  lemma ProductDocumentRoundTrip(d: map<string, Bson>)
    requires ProductSchema(d)
    ensures ProductOfDocument(d).0 == d["_id"].oid
    ensures ProductDocument(ProductOfDocument(d).0, ProductOfDocument(d).1) == d
    ensures ValidProduct(ProductOfDocument(d).1)
  {
    var (id, p) := ProductOfDocument(d);
    var e := ProductDocument(id, p);
    assert e.Keys == d.Keys;
    assert forall k :: k in d ==> e[k] == d[k];
  }

  lemma LineSchemaIff(l: Line)
    ensures LineSchema(LineDocument(l)) <==> ValidLine(l)
    ensures LineSchema(LineDocument(l)) ==> LineOfDocument(LineDocument(l)) == l
  {
    assert LineDocument(l).fields.Keys == {"_id", "name", "price", "quantity"};
  }

  /** A typed order passes the validator exactly when `ValidOrder` holds, and reading
      back a stored order gives the same order. */
  lemma OrderSchemaIff(id: ObjectId, o: Order)
    ensures OrderSchema(OrderDocument(id, o)) <==> ValidOrder(o)
    ensures OrderSchema(OrderDocument(id, o)) ==> OrderOfDocument(OrderDocument(id, o)) == (id, o)
  {
    var d := OrderDocument(id, o);
    assert d.Keys == {"_id", "email", "created_at", "products", "status", "total_price"};
    var items := d["products"].items;
    forall i | 0 <= i < |o.lines|
      ensures LineSchema(items[i]) <==> ValidLine(o.lines[i])
    {
      LineSchemaIff(o.lines[i]);
    }
    if OrderSchema(d) {
      var back := OrderOfDocument(d).1;
      forall i | 0 <= i < |o.lines| ensures back.lines[i] == o.lines[i] {
        LineSchemaIff(o.lines[i]);
      }
      assert back.lines == o.lines;
    }
  }

  // ---------------------------------------------------------------------------
  // Seed data (mongo_queries.py:113-120); prices in cents

  const Seed: seq<Product> := [
    Product("Nohavice", 2251, 7, 1),
    Product("Tričko", 432, 10, 9),
    Product("Mikina", 1669, 3, 2),
    Product("Čiapka", 502, 5, 1)
  ]

  lemma SeedValid()
    ensures |Seed| == 4
    ensures forall i :: 0 <= i < |Seed| ==> ValidProduct(Seed[i])
  {
  }
}
