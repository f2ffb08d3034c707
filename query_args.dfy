/** The query-string arguments of the two list endpoints (main.py:184-208 and
    300-325): Python's `int()` and `str.strip()` as `request.args.get` applies them, the
    checks on `page` and `limit`, and the endpoint-specific filters and sort options. */
module QueryArgs {
  import opened Common
  import opened Schema

  /** The query string, one value per name. */
  type Args = map<string, string>

  // ---------------------------------------------------------------------------
  // Python's int() and JavaScript's String() on integers

  predicate IsDigit(c: char)
  {
    '0' <= c <= '9'
  }

  predicate AllDigits(s: string)
  {
    forall i :: 0 <= i < |s| ==> IsDigit(s[i])
  }

  function DigitValue(c: char): nat
    requires IsDigit(c)
  {
    c as int - '0' as int
  }

  function Digit(d: nat): (c: char)
    requires d < 10
    ensures IsDigit(c) && DigitValue(c) == d
  {
    ('0' as int + d) as char
  }

  /** The value of a run of decimal digits, most significant first. */
  function DigitsValue(s: string): nat
    requires AllDigits(s)
    decreases |s|
  {
    if s == [] then 0 else DigitsValue(s[..|s| - 1]) * 10 + DigitValue(s[|s| - 1])
  }

  /** `int(s)`: surrounding whitespace, an optional sign, then at least one digit;
      None where Python raises ValueError. */
  function ParseInt(s: string): Option<int>
  {
    var t := Trim(s, IntArg);
    if t == [] then None
    else if t[0] == '-' || t[0] == '+' then
      var d := t[1..];
      if d != [] && AllDigits(d) then
        var v: int := DigitsValue(d);
        Some(if t[0] == '-' then -v else v)
      else None
    else if AllDigits(t) then Some(DigitsValue(t))
    else None
  }

  /** The decimal digits of a natural number. */
  function DecimalString(n: nat): (s: string)
    ensures s != [] && AllDigits(s) && DigitsValue(s) == n
    ensures s[0] != '0' || n == 0
    decreases n
  {
    if n < 10 then [Digit(n)]
    else
      var s := DecimalString(n / 10) + [Digit(n % 10)];
      assert s[..|s| - 1] == DecimalString(n / 10);
      s
  }

  /** `String(n)` on an integer, as the client writes its query parameters. */
  function IntString(n: int): string
  {
    if n < 0 then "-" + DecimalString(-n) else DecimalString(n)
  }

  /** The server reads back every integer the client writes. */
  lemma ParseIntString(n: int)
    ensures ParseInt(IntString(n)) == Some(n)
  {
    var s := IntString(n);
    assert s != [] && !IsSpace(s[0], IntArg) && !IsSpace(s[|s| - 1], IntArg);
    assert TrimLeft(s, IntArg) == s;
    assert TrimRight(s, IntArg) == s;
    if n < 0 {
      assert s[1..] == DecimalString(-n);
    }
  }

  /** `request.args.get(key, default=d, type=int)`: the default when the argument is
      missing or does not parse. */
  function ArgInt(args: Args, key: string, default: int): int
  {
    if key in args && ParseInt(args[key]).Some? then ParseInt(args[key]).value else default
  }

  /** `request.args.get(key, default=d, type=str).strip()`. */
  function ArgStr(args: Args, key: string, default: string): string
  {
    Trim(if key in args then args[key] else default, PyStrip)
  }

  // ---------------------------------------------------------------------------
  // Paging (main.py:184-200, 209, 236 and 300-316, 326, 352)

  datatype Paging = Paging(page: int, limit: int)

  /** The checks both endpoints make on `page` and `limit`, in this order. */
  function CheckPaging(args: Args): (r: Result<Paging, string>)
    ensures r.Ok? <==> ArgInt(args, "page", 1) >= 1 && 1 <= ArgInt(args, "limit", 20) <= 50
    ensures r.Ok? ==> r.value == Paging(ArgInt(args, "page", 1), ArgInt(args, "limit", 20))
    ensures r.Ok? ==> r.value.page >= 1 && 1 <= r.value.limit <= 50
    ensures ArgInt(args, "page", 1) <= 0 ==> r == Err("page number can not be negative")
    ensures ArgInt(args, "page", 1) >= 1 && ArgInt(args, "limit", 20) <= 0 ==> r == Err("limit can not be negative")
    ensures ArgInt(args, "page", 1) >= 1 && ArgInt(args, "limit", 20) > 50 ==> r == Err("limit can not be greater than 50")
  {
    var page := ArgInt(args, "page", 1);
    if page <= 0 then Err("page number can not be negative")
    else
      var limit := ArgInt(args, "limit", 20);
      if limit <= 0 then Err("limit can not be negative")
      else if limit > 50 then Err("limit can not be greater than 50")
      else Ok(Paging(page, limit))
  }

  /** A query that carries the decimal text of an accepted page and limit is read back
      as exactly that page and limit. */
  lemma PagingRead(args: Args, page: int, limit: int)
    requires "page" in args && args["page"] == IntString(page)
    requires "limit" in args && args["limit"] == IntString(limit)
    requires page >= 1 && 1 <= limit <= 50
    ensures CheckPaging(args) == Ok(Paging(page, limit))
  {
    ParseIntString(page);
    ParseIntString(limit);
  }

  /** With no arguments a list endpoint serves the first page of 20. */
  lemma PagingDefaults()
    ensures CheckPaging(map[]) == Ok(Paging(1, 20))
    ensures CheckPaging(map["page" := "x", "limit" := " 7 "]) == Ok(Paging(1, 7))
  {
    assert Trim(" 7 ", IntArg) == "7" by {
      assert TrimLeft(" 7 ", IntArg) == TrimLeft("7 ", IntArg) == "7 ";
      assert TrimRight("7 ", IntArg) == TrimRight("7", IntArg) == "7";
    }
    assert "7"[..0] == "";
    assert ParseInt("x") == None;
  }

  /** `int()` skips less than `strip()`: an information separator after the digits makes
      the page unreadable, so the default page 1 is served, while U+0085 is skipped. */
  lemma SeparatorNotSkipped()
    ensures ParseInt("5\U{001C}") == None
    ensures CheckPaging(map["page" := "5\U{001C}"]) == Ok(Paging(1, 20))
    ensures ParseInt("5\U{0085}") == Some(5)
  {
    assert TrimLeft("5\U{001C}", IntArg) == "5\U{001C}";
    assert TrimRight("5\U{001C}", IntArg) == "5\U{001C}";
    assert !AllDigits("5\U{001C}") by {
      assert !IsDigit("5\U{001C}"[1]);
    }
    assert Trim("5\U{0085}", IntArg) == "5" by {
      assert TrimLeft("5\U{0085}", IntArg) == "5\U{0085}";
      assert TrimRight("5\U{0085}", IntArg) == TrimRight("5", IntArg) == "5";
    }
    assert "5"[..0] == "";
  }

  // ---------------------------------------------------------------------------
  // get_orders (main.py:201-208)

  datatype OrderQuery = OrderQuery(paging: Paging, email: string, status: string)

  function CheckOrderArgs(args: Args): (r: Result<OrderQuery, string>)
    ensures r.Ok? <==> CheckPaging(args).Ok? && ArgStr(args, "filter_status", "") in {"", Unpaid, Cancelled}
    ensures CheckPaging(args).Err? ==> r == Err(CheckPaging(args).error)
    ensures CheckPaging(args).Ok? && r.Err? ==> r.error == "unknown filter for status"
    ensures r.Ok? ==> r.value.paging.page >= 1 && 1 <= r.value.paging.limit <= 50
    ensures r.Ok? ==>
      && r.value.paging == CheckPaging(args).value
      && r.value.email == ArgStr(args, "filter_email", "")
      && r.value.status == ArgStr(args, "filter_status", "")
  {
    match CheckPaging(args)
    case Err(e) => Err(e)
    case Ok(paging) =>
      var email := ArgStr(args, "filter_email", "");
      var status := ArgStr(args, "filter_status", "");
      if status !in {"", Unpaid, Cancelled} then Err("unknown filter for status")
      else Ok(OrderQuery(paging, email, status))
  }

  // ---------------------------------------------------------------------------
  // get_products (main.py:317-325)

  const OrderByFields: set<string> := {"name", "_id", "stock", "price", "units_sold"}

  datatype ProductQuery = ProductQuery(paging: Paging, nameQuery: string, orderBy: string, ascending: bool)

  function CheckProductArgs(args: Args): (r: Result<ProductQuery, string>)
    ensures r.Ok? <==> CheckPaging(args).Ok? && ArgStr(args, "order_by", "name") in OrderByFields
                       && ArgStr(args, "order", "asc") in {"asc", "desc"}
    ensures CheckPaging(args).Err? ==> r == Err(CheckPaging(args).error)
    ensures CheckPaging(args).Ok? && ArgStr(args, "order_by", "name") !in OrderByFields ==> r == Err("unknown order_by")
    ensures CheckPaging(args).Ok? && ArgStr(args, "order_by", "name") in OrderByFields && r.Err? ==> r.error == "unknown order"
    ensures r.Ok? ==> r.value.paging.page >= 1 && 1 <= r.value.paging.limit <= 50
    ensures r.Ok? ==> && r.value.paging == CheckPaging(args).value
                      && r.value.nameQuery == ArgStr(args, "name_query", "")
                      && r.value.orderBy == ArgStr(args, "order_by", "name")
                      && (r.value.ascending <==> ArgStr(args, "order", "asc") == "asc")
  {
    match CheckPaging(args)
    case Err(e) => Err(e)
    case Ok(paging) =>
      var nameQuery := ArgStr(args, "name_query", "");
      var orderBy := ArgStr(args, "order_by", "name");
      if orderBy !in OrderByFields then Err("unknown order_by")
      else
        var order := ArgStr(args, "order", "asc");
        if order !in {"asc", "desc"} then Err("unknown order")
        else Ok(ProductQuery(paging, nameQuery, orderBy, order == "asc"))
  }

  /** With no arguments the products are served by name, ascending, 20 to a page. */
  lemma ProductDefaults()
    ensures CheckProductArgs(map[]) == Ok(ProductQuery(Paging(1, 20), "", "name", true))
  {
    assert TrimLeft("name", PyStrip) == "name" && TrimRight("name", PyStrip) == "name";
    assert TrimLeft("asc", PyStrip) == "asc" && TrimRight("asc", PyStrip) == "asc";
    assert Trim("", PyStrip) == "";
  }

}
