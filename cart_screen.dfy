/** The shopping-cart screen (screens/ShoppingCartScreen.tsx): the cart read from
    storage at mount, quantity changes written back to storage, the order submission
    and the result dialog. Each handler is one atomic step; the reply of `createOrder`
    is a parameter, and the request it would send is appended to `requests`. */
module CartScreen {
  import opened Common
  import opened Schema
  import opened Cart
  import opened Api
  import Ledger

  const ErrorTitle := "An error occurred while creating the order."
  const SuccessTitle := "Your order was created successfully!"
  const SuccessMessage := "Check all your orders in profile page."
  const EmptyEmail := "User email can not be empty."

  predicate DistinctIds(lines: seq<(ObjectId, int)>)
  {
    forall i, j :: 0 <= i < j < |lines| ==> lines[i].0 != lines[j].0
  }

  /** The request's `products`: one `{id, quantity}` per key of the cart and nothing
      else (names, prices and stock are not sent). */
  predicate Projects(c: Cart, lines: seq<(ObjectId, int)>)
  {
    && DistinctIds(lines)
    && (forall i :: 0 <= i < |lines| ==> lines[i].0 in c && lines[i].1 == c[lines[i].0].quantity)
    && (forall k :: k in c ==> exists i :: 0 <= i < |lines| && lines[i].0 == k)
  }

  /** A projection has exactly one line per cart key. */
  lemma {:induction false} ProjectsCount(c: Cart, lines: seq<(ObjectId, int)>)
    requires Projects(c, lines)
    ensures |lines| == |c.Keys|
  {
    var ids := set i | 0 <= i < |lines| :: lines[i].0;
    assert ids == c.Keys;
    DistinctCount(lines);
  }

  lemma {:induction false} DistinctCount(lines: seq<(ObjectId, int)>)
    requires DistinctIds(lines)
    ensures |set i | 0 <= i < |lines| :: lines[i].0| == |lines|
    decreases |lines|
  {
    if lines != [] {
      var init := lines[..|lines| - 1];
      var last := lines[|lines| - 1].0;
      assert DistinctIds(init);
      DistinctCount(init);
      var ids := set i | 0 <= i < |lines| :: lines[i].0;
      var initIds := set i | 0 <= i < |init| :: init[i].0;
      assert ids == initIds + {last};
      assert last !in initIds;
    }
  }

  /** `create_order` refuses the request of an empty cart. */
  lemma SubmittedEmptyRefused(c: Cart, email: string, lines: seq<(ObjectId, int)>)
    requires Projects(c, lines) && c == map[]
    ensures Ledger.CheckBody(Some(OrderBody(email, lines))) == Ledger.BodyRejected(Ledger.BadRequest("products array can not be empty"))
  {
    ProjectsCount(c, lines);
    assert |c.Keys| == 0;
    assert OrderBody(email, lines).fields["products"] == JArr([]);
  }

  /** The request of any other cart passes the body checks. */
  lemma SubmittedBodyOk(c: Cart, email: string, lines: seq<(ObjectId, int)>)
    requires Projects(c, lines) && c != map[]
    ensures Ledger.CheckBody(Some(OrderBody(email, lines))).BodyOk?
  {
    ProjectsCount(c, lines);
    var k :| k in c;
    assert |c.Keys| >= 1;
  }

  /** With hex ids and positive quantities in the cart, every item of the request passes
      the item checks. */
  lemma SubmittedItemsWellFormed(c: Cart, email: string, lines: seq<(ObjectId, int)>)
    requires Projects(c, lines)
    requires forall k :: k in c ==> IsObjectIdHex(k) && c[k].quantity >= 1
    ensures forall j :: j in OrderBody(email, lines).fields["products"].items ==> Ledger.WellFormedItem(j)
  {
    var items := OrderBody(email, lines).fields["products"].items;
    forall j | j in items
      ensures Ledger.WellFormedItem(j)
    {
      var i :| 0 <= i < |items| && items[i] == j;
      assert lines[i].0 in c;
    }
  }

  class CartScreenState {
    var products: Cart
    var email: string
    var open: bool
    var modalTitle: string
    var error: string
    var requests: seq<Request>
    const storage: LocalStorage

    /** Mounting: `useState({})`, then the effect that loads the saved cart. */
    constructor(storage: LocalStorage)
      ensures this.storage == storage
      ensures products == StoredCart(storage.GetItem(CartKey))
      ensures email == "" && !open && modalTitle == "" && error == "" && requests == []
    {
      this.storage := storage;
      products := StoredCart(storage.GetItem(CartKey));
      email := "";
      open := false;
      modalTitle := "";
      error := "";
      requests := [];
    }

    /** `handleQuantityChange`. For a product without a line the assignment to its
        `quantity` throws before anything is changed. */
    method HandleQuantityChange(id: ObjectId, n: int)
      modifies this, storage
      ensures id !in old(products) ==> products == old(products) && storage.items == old(storage.items)
      ensures id in old(products) ==>
                && products == SetQuantity(old(products), id, n).value
                && storage.items == old(storage.items)[CartKey := CartJson(products)]
      ensures StoredCart(storage.GetItem(CartKey)) == products || id !in old(products)
      ensures email == old(email) && open == old(open) && modalTitle == old(modalTitle)
      ensures error == old(error) && requests == old(requests)
    {
      if id in products {
        var updated := products;
        updated := updated[id := updated[id].(quantity := n)];
        if n == 0 {
          updated := updated - {id};
        }
        products := updated;
        storage.SetItem(CartKey, CartJson(updated));
        StoredCartRoundTrip(updated);
      }
    }

    method HandleEmailChange(value: string)
      modifies this
      ensures email == value
      ensures products == old(products) && open == old(open) && modalTitle == old(modalTitle)
      ensures error == old(error) && requests == old(requests)
    {
      email := value;
    }

    /** `handleSubmitOrder`, given what `createOrder` answers. */
    method HandleSubmitOrder(resp: Response<()>)
      modifies this, storage
      ensures products == old(products) && open
      ensures Trim(old(email), JsTrim) == "" ==>
                && requests == old(requests) && storage.items == old(storage.items)
                && email == old(email) && modalTitle == ErrorTitle && error == EmptyEmail
      ensures Trim(old(email), JsTrim) != "" ==>
                && |requests| == |old(requests)| + 1
                && requests[..|old(requests)|] == old(requests)
                && requests[|old(requests)|].PostOrder?
                && requests[|old(requests)|].email == Trim(old(email), JsTrim)
                && Projects(products, requests[|old(requests)|].lines)
      ensures Trim(old(email), JsTrim) != "" && CreateOutcome(resp).Success? ==>
                && storage.items == old(storage.items) - {CartKey}
                && email == "" && modalTitle == SuccessTitle && error == SuccessMessage
      ensures Trim(old(email), JsTrim) != "" && CreateOutcome(resp).Failure? ==>
                && storage.items == old(storage.items) && email == old(email)
                && modalTitle == ErrorTitle && error == CreateOutcome(resp).error
    {
      var emailTrimmed := Trim(email, JsTrim);
      if emailTrimmed == "" {
        modalTitle := ErrorTitle;
        error := EmptyEmail;
        open := true;
        return;
      }
      var lines: seq<(ObjectId, int)> := [];
      var rest := products.Keys;
      while rest != {}
        invariant rest <= products.Keys
        invariant DistinctIds(lines)
        invariant forall i :: 0 <= i < |lines| ==>
                    lines[i].0 in products && lines[i].0 !in rest && lines[i].1 == products[lines[i].0].quantity
        invariant forall k :: k in products && k !in rest ==> exists i :: 0 <= i < |lines| && lines[i].0 == k
        decreases rest
      {
        var k :| k in rest;
        var before := lines;
        lines := lines + [(k, products[k].quantity)];
        assert forall i :: 0 <= i < |before| ==> lines[i] == before[i];
        assert lines[|before|].0 == k;
        rest := rest - {k};
      }
      requests := requests + [PostOrder(emailTrimmed, lines)];
      var outcome := CreateOutcome(resp);
      if outcome.Success? {
        modalTitle := SuccessTitle;
        error := SuccessMessage;
        email := "";
        storage.RemoveItem(CartKey);
      } else {
        modalTitle := ErrorTitle;
        error := outcome.error;
      }
      open := true;
    }

    /** `handleClose`: the cart in memory is emptied only when the email is empty and
        no cart is saved. */
    method HandleClose()
      modifies this
      ensures !open
      ensures products == (if email == "" && storage.GetItem(CartKey).None? then map[] else old(products))
      ensures email == old(email) && modalTitle == old(modalTitle) && error == old(error)
      ensures requests == old(requests)
    {
      if email == "" && storage.GetItem(CartKey).None? {
        products := map[];
      }
      open := false;
    }
  }

  /** A successful submission followed by closing the dialog leaves nothing in the cart,
      in memory or in storage; a rejected one keeps both. */
  method SubmitThenClose(screen: CartScreenState, resp: Response<()>)
    requires Trim(screen.email, JsTrim) != ""
    modifies screen, screen.storage
    ensures CreateOutcome(resp).Success? ==> screen.products == map[] && CartKey !in screen.storage.items
    ensures CreateOutcome(resp).Failure? ==>
              screen.products == old(screen.products) && screen.storage.items == old(screen.storage.items)
  {
    screen.HandleSubmitOrder(resp);
    screen.HandleClose();
  }
}
