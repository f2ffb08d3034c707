/** The client's API wrappers (utils/api.ts): each turns what `fetch` and
    `response.json()` produced into a `{result, data | error}` outcome. The network is
    abstract: a wrapper is a function of the response it was given, and the requests a
    screen sends are recorded as `Request` values. */
module Api {
  import opened Common
  import opened Schema
  import opened QueryArgs
  import opened Queries
  import Listing
  import Ledger

  /** The members of a parsed response body the client looks at. `error` is None when
      the body has none (or it is not a string). */
  datatype Body<D> = Body(data: Option<D>, error: Option<string>)

  /** What awaiting `fetch` (and, where the wrapper reads it, `response.json()`) gave:
      an exception (network failure), or a status with the body, None when that body
      is not JSON and `response.json()` throws. */
  datatype Response<D> = Threw | Received(status: int, body: Option<Body<D>>)

  /** `{result: true, data}` or `{result: false, error}`. */
  datatype Outcome<D> = Success(data: D) | Failure(error: string)

  /** A request a screen sends. */
  datatype Request =
    | GetProducts(args: Args)
    | PostOrder(email: string, lines: seq<(ObjectId, int)>)
    | GetOrders(args: Args)
    | DeleteOrder(path: string)

  const NetworkError := "Network error, try again later."
  /** `createOrder`'s copy of the message has no final period. */
  const CreateNetworkError := "Network error, try again later"

  /** `response.ok`. */
  predicate Ok(status: int)
  {
    200 <= status <= 299
  }

  /** `responseBody.error || fallback`: an empty message counts as none. */
  function ErrorOr(error: Option<string>, fallback: string): (e: string)
    ensures error.Some? && error.value != "" ==> e == error.value
    ensures error.None? || error.value == "" ==> e == fallback
  {
    if error.Some? && error.value != "" then error.value else fallback
  }

  /** `getProducts` and `getOrders` (api.ts:13-37 and 64-88): the body is always read;
      success needs an ok status and a `data` member. */
  function QueryOutcome<D>(resp: Response<D>, fallback: string): (r: Outcome<D>)
    ensures r.Success? <==> resp.Received? && Ok(resp.status) && resp.body.Some? && resp.body.value.data.Some?
    ensures r.Success? ==> r.data == resp.body.value.data.value
    ensures resp.Threw? || (resp.Received? && resp.body.None?) ==> r == Failure(NetworkError)
    ensures resp.Received? && resp.body.Some? && r.Failure? ==> r.error == ErrorOr(resp.body.value.error, fallback)
  {
    match resp
    case Threw => Failure(NetworkError)
    case Received(status, body) =>
      if body.None? then Failure(NetworkError)
      else if Ok(status) && body.value.data.Some? then Success(body.value.data.value)
      else Failure(ErrorOr(body.value.error, fallback))
  }

  /** `getProducts`: a failure always carries a message, the fixed one when the body
      names no error. */
  function ProductsOutcome(resp: Response<ProductsPage>): (r: Outcome<ProductsPage>)
    ensures r.Failure? ==> r.error != ""
    ensures resp.Received? && resp.body.Some? && resp.body.value.error.None? && r.Failure? ==>
              r.error == "Failed to get products."
  {
    QueryOutcome(resp, "Failed to get products.")
  }

  /** `getOrders`, likewise. */
  function OrdersOutcome(resp: Response<OrdersPage>): (r: Outcome<OrdersPage>)
    ensures r.Failure? ==> r.error != ""
    ensures resp.Received? && resp.body.Some? && resp.body.value.error.None? && r.Failure? ==>
              r.error == "Failed to get orders."
  {
    QueryOutcome(resp, "Failed to get orders.")
  }

  /** `createOrder` and `deleteOrder` (api.ts:39-62 and 90-111): success is one exact
      status, checked before the body is read; any other status reads the body for its
      error. */
  function MutationOutcome(resp: Response<()>, expected: int, fallback: string, networkError: string): (r: Outcome<()>)
    ensures r.Success? <==> resp.Received? && resp.status == expected
    ensures resp.Threw? ==> r == Failure(networkError)
    ensures resp.Received? && resp.status != expected ==>
              r == Failure(if resp.body.None? then networkError else ErrorOr(resp.body.value.error, fallback))
  {
    match resp
    case Threw => Failure(networkError)
    case Received(status, body) =>
      if status == expected then Success(())
      else if body.None? then Failure(networkError)
      else Failure(ErrorOr(body.value.error, fallback))
  }

  /** `createOrder`: only 201 is a success. */
  function CreateOutcome(resp: Response<()>): (r: Outcome<()>)
    ensures r.Success? <==> resp.Received? && resp.status == 201
    ensures r.Failure? ==> r.error != ""
    ensures resp.Received? && resp.body.Some? && resp.body.value.error.None? && r.Failure? ==>
              r.error == "Failed to create order."
  {
    MutationOutcome(resp, 201, "Failed to create order.", CreateNetworkError)
  }

  /** `deleteOrder`: only 204 is a success. */
  function DeleteOutcome(resp: Response<()>): (r: Outcome<()>)
    ensures r.Success? <==> resp.Received? && resp.status == 204
    ensures r.Failure? ==> r.error != ""
    ensures resp.Received? && resp.body.Some? && resp.body.value.error.None? && r.Failure? ==>
              r.error == "Failed to cancel order."
  {
    MutationOutcome(resp, 204, "Failed to cancel order.", NetworkError)
  }

  /** `JSON.stringify` of a `CreateOrderRequest`, as `create_order` parses it. */
  function OrderBody(email: string, lines: seq<(ObjectId, int)>): Json
  {
    JObj(map["email" := JStr(email),
             "products" := JArr(seq(|lines|, i requires 0 <= i < |lines| =>
                                      JObj(map["id" := JStr(lines[i].0), "quantity" := JInt(lines[i].1)])))])
  }

  /** The path `deleteOrder` sends its DELETE to (api.ts:94). */
  function DeletePath(orderId: string): (p: string)
    ensures |p| == 7 + |orderId| && p[..7] == "orders/" && p[7..] == orderId
  {
    "orders/" + orderId
  }

  // ---------------------------------------------------------------------------
  // What the server's answers look like to the client

  /** A list endpoint's answer on the wire: `{"data": ...}` with 200, or
      `{"error": ...}` with the error status. */
  function ListWire<D>(a: Listing.Answer<D>): Response<D>
  {
    match a
    case Ok200(d) => Received(200, Some(Body(Some(d), None)))
    case Failed(status, e) => Received(status, Some(Body(None, Some(e))))
  }

  /** A reply of `create_order` or `cancel_order` on the wire: an empty body for 201 and
      204, otherwise `{"error": ...}`. */
  function ReplyWire(r: Ledger.Reply): Response<()>
  {
    Received(r.status, Some(Body(None, r.error)))
  }

  /** Every answer of a list endpoint reaches the screen unchanged: its page on success,
      the server's own message on failure (every such message is non-empty). */
  lemma ListAnswerSeen<D>(a: Listing.Answer<D>, fallback: string)
    requires a.Failed? ==> a.error != "" && !Ok(a.status)
    ensures var r := QueryOutcome(ListWire(a), fallback);
      && (r.Success? <==> a.Ok200?)
      && (a.Ok200? ==> r.data == a.data)
      && (a.Failed? ==> r.error == a.error)
  {
  }

  /** The client's `createOrder` and `deleteOrder` succeed exactly on the server's 201
      and 204, and report a rejection with the server's message. */
  lemma ReplySeen(r: Ledger.Reply)
    requires r.error.Some? ==> r.error.value != ""
    ensures CreateOutcome(ReplyWire(r)).Success? <==> r.status == 201
    ensures DeleteOutcome(ReplyWire(r)).Success? <==> r.status == 204
    ensures r.status != 201 && r.error.Some? ==> CreateOutcome(ReplyWire(r)) == Failure(r.error.value)
    ensures r.status != 204 && r.error.Some? ==> DeleteOutcome(ReplyWire(r)) == Failure(r.error.value)
  {
  }
}
