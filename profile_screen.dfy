/** The orders screen (screens/ProfileScreen.tsx): the orders of one page under the
    email and status filters, and the cancel button. Each handler is one atomic step:
    the replies of `getOrders` and `deleteOrder` are parameters and the requests they
    would send are appended to `requests`. */
module ProfileScreen {
  import opened Common
  import opened Schema
  import opened QueryArgs
  import opened Queries
  import opened Api

  const CancelErrorTitle := "An error occurred while cancelling the order."

  /** The query string every fetch of this screen sends: all four parameters. */
  function OrderArgs(page: int, limit: int, email: string, status: string): (a: Args)
    ensures a.Keys == {"page", "limit", "filter_email", "filter_status"}
    ensures a["filter_email"] == email && a["filter_status"] == status
  {
    map["page" := IntString(page), "limit" := IntString(limit), "filter_email" := email, "filter_status" := status]
  }

  /** The server reads back every query of the status menu: its page and limit and the
      trimmed email, with the status filter as chosen. */
  lemma ServerReadsOrderQuery(page: int, limit: int, email: string, status: string)
    requires page >= 1 && 1 <= limit <= 50 && status in {"", Unpaid, Cancelled}
    ensures CheckOrderArgs(OrderArgs(page, limit, email, status)) == Ok(OrderQuery(Paging(page, limit), Trim(email, PyStrip), status))
  {
    var a := OrderArgs(page, limit, email, status);
    PagingRead(a, page, limit);
    assert ArgStr(a, "filter_email", "") == Trim(email, PyStrip);
    assert ArgStr(a, "filter_status", "") == status by {
      TrimUnpadded(status, PyStrip);
    }
  }

  class ProfileScreenState {
    var orders: seq<StoredOrder>
    var email: string
    var filterStatus: string
    var itemsPerPage: int
    var totalPages: int
    var page: int
    var open: bool
    var modalTitle: string
    var error: string
    var requests: seq<Request>

    /** The state before the first fetch. */
    constructor()
      ensures orders == [] && email == "" && filterStatus == "" && itemsPerPage == 3
      ensures totalPages == 1 && page == 1 && !open && modalTitle == "" && error == "" && requests == []
    {
      orders := [];
      email := "";
      filterStatus := "";
      itemsPerPage := 3;
      totalPages := 1;
      page := 1;
      open := false;
      modalTitle := "";
      error := "";
      requests := [];
    }

    /** Send the query of the current state and keep its answer if it is a success; a
        failure changes nothing and shows nothing. */
    method Fetch(resp: Response<OrdersPage>)
      modifies this
      ensures requests == old(requests) + [GetOrders(OrderArgs(page, itemsPerPage, email, filterStatus))]
      ensures var o := OrdersOutcome(resp);
        && orders == (if o.Success? then o.data.orders else old(orders))
        && totalPages == (if o.Success? then o.data.totalPages else old(totalPages))
      ensures email == old(email) && filterStatus == old(filterStatus) && itemsPerPage == old(itemsPerPage)
      ensures page == old(page) && open == old(open) && modalTitle == old(modalTitle) && error == old(error)
    {
      requests := requests + [GetOrders(OrderArgs(page, itemsPerPage, email, filterStatus))];
      var outcome := OrdersOutcome(resp);
      if outcome.Success? {
        orders := outcome.data.orders;
        totalPages := outcome.data.totalPages;
      }
    }

    /** The effect run once at mount. */
    method Mount(resp: Response<OrdersPage>)
      modifies this
      ensures requests == old(requests) + [GetOrders(OrderArgs(old(page), old(itemsPerPage), old(email), old(filterStatus)))]
      ensures var o := OrdersOutcome(resp);
        && orders == (if o.Success? then o.data.orders else old(orders))
        && totalPages == (if o.Success? then o.data.totalPages else old(totalPages))
      ensures email == old(email) && filterStatus == old(filterStatus) && itemsPerPage == old(itemsPerPage)
      ensures page == old(page) && open == old(open) && modalTitle == old(modalTitle) && error == old(error)
    {
      Fetch(resp);
    }

    method HandleEmailChange(value: string, resp: Response<OrdersPage>)
      modifies this
      ensures requests == old(requests) + [GetOrders(OrderArgs(old(page), old(itemsPerPage), value, old(filterStatus)))]
      ensures var o := OrdersOutcome(resp);
        && orders == (if o.Success? then o.data.orders else old(orders))
        && totalPages == (if o.Success? then o.data.totalPages else old(totalPages))
      ensures email == value && filterStatus == old(filterStatus) && itemsPerPage == old(itemsPerPage)
      ensures page == old(page) && open == old(open) && modalTitle == old(modalTitle) && error == old(error)
    {
      email := value;
      Fetch(resp);
    }

    method HandleFilterStatusChange(status: string, resp: Response<OrdersPage>)
      modifies this
      ensures requests == old(requests) + [GetOrders(OrderArgs(old(page), old(itemsPerPage), old(email), status))]
      ensures var o := OrdersOutcome(resp);
        && orders == (if o.Success? then o.data.orders else old(orders))
        && totalPages == (if o.Success? then o.data.totalPages else old(totalPages))
      ensures email == old(email) && filterStatus == status && itemsPerPage == old(itemsPerPage)
      ensures page == old(page) && open == old(open) && modalTitle == old(modalTitle) && error == old(error)
    {
      filterStatus := status;
      Fetch(resp);
    }

    method HandleItemsPerPageChange(n: int, resp: Response<OrdersPage>)
      modifies this
      ensures requests == old(requests) + [GetOrders(OrderArgs(old(page), n, old(email), old(filterStatus)))]
      ensures var o := OrdersOutcome(resp);
        && orders == (if o.Success? then o.data.orders else old(orders))
        && totalPages == (if o.Success? then o.data.totalPages else old(totalPages))
      ensures email == old(email) && filterStatus == old(filterStatus) && itemsPerPage == n
      ensures page == old(page) && open == old(open) && modalTitle == old(modalTitle) && error == old(error)
    {
      itemsPerPage := n;
      Fetch(resp);
    }

    /** `handlePageChange(value)`: no clamp on this screen. */
    method HandlePageChange(value: int, resp: Response<OrdersPage>)
      modifies this
      ensures requests == old(requests) + [GetOrders(OrderArgs(value, old(itemsPerPage), old(email), old(filterStatus)))]
      ensures var o := OrdersOutcome(resp);
        && orders == (if o.Success? then o.data.orders else old(orders))
        && totalPages == (if o.Success? then o.data.totalPages else old(totalPages))
      ensures email == old(email) && filterStatus == old(filterStatus) && itemsPerPage == old(itemsPerPage)
      ensures page == value && open == old(open) && modalTitle == old(modalTitle) && error == old(error)
    {
      page := value;
      Fetch(resp);
    }

    /** `handleCancelOrder(order)`: a successful delete re-queries with the current
        state; a failed one reports its error and keeps the listed orders. */
    method HandleCancelOrder(order: StoredOrder, deleted: Response<()>, listed: Response<OrdersPage>)
      modifies this
      ensures DeleteOutcome(deleted).Success? ==>
                && requests == old(requests) + [DeleteOrder(DeletePath(order.0)),
                                                GetOrders(OrderArgs(old(page), old(itemsPerPage), old(email), old(filterStatus)))]
                && var o := OrdersOutcome(listed);
                && orders == (if o.Success? then o.data.orders else old(orders))
                && totalPages == (if o.Success? then o.data.totalPages else old(totalPages))
                && open == old(open) && modalTitle == old(modalTitle) && error == old(error)
      ensures DeleteOutcome(deleted).Failure? ==>
                && requests == old(requests) + [DeleteOrder(DeletePath(order.0))]
                && orders == old(orders) && totalPages == old(totalPages)
                && open && modalTitle == CancelErrorTitle && error == DeleteOutcome(deleted).error
      ensures email == old(email) && filterStatus == old(filterStatus) && itemsPerPage == old(itemsPerPage)
      ensures page == old(page)
    {
      requests := requests + [DeleteOrder(DeletePath(order.0))];
      var outcome := DeleteOutcome(deleted);
      if outcome.Success? {
        Fetch(listed);
      } else {
        modalTitle := CancelErrorTitle;
        error := outcome.error;
        open := true;
      }
    }

    /** The "Cancel order" button, disabled for an order already cancelled: no delete is
        ever sent for one. */
    method PressCancel(order: StoredOrder, deleted: Response<()>, listed: Response<OrdersPage>)
      modifies this
      ensures order.1.status == Cancelled ==>
                && requests == old(requests) && orders == old(orders) && totalPages == old(totalPages)
                && open == old(open) && modalTitle == old(modalTitle) && error == old(error)
      ensures order.1.status != Cancelled ==> |requests| > |old(requests)| && requests[|old(requests)|] == DeleteOrder(DeletePath(order.0))
      ensures email == old(email) && filterStatus == old(filterStatus) && itemsPerPage == old(itemsPerPage)
      ensures page == old(page)
    {
      if order.1.status != Cancelled {
        HandleCancelOrder(order, deleted, listed);
      }
    }
  }
}
