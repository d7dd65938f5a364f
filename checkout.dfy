/** The checkout page: the subtotal of the client cart, the order payload it
    posts, and the guarded place-order flow that clears the cart on success.
    The post request is split at its `await`: `PlaceOrder` runs up to the
    request, `SettleOrder` runs when its outcome arrives. */
module Checkout {
  import opened JsValues
  import opened CartSlice

  /** What one line contributes: price times quantity. */
  function LineTotal(it: CartItem): (t: int)
    ensures it.price >= 0 && it.quantity >= 0 ==> t >= 0
    ensures it.quantity == 0 || it.price == 0 ==> t == 0
  {
    it.price * it.quantity
  }

  /** `cart.reduce((s, it) => s + it.price * it.quantity, 0)`: a left fold. */
  function Subtotal(cart: seq<CartItem>): (t: int)
    ensures cart == [] ==> t == 0
    decreases |cart|
  {
    if cart == [] then 0 else Subtotal(cart[..|cart| - 1]) + LineTotal(cart[|cart| - 1])
  }

  /** With non-negative prices and quantities the subtotal is non-negative. */
  lemma {:induction false} SubtotalNonNegative(cart: seq<CartItem>)
    requires forall i | 0 <= i < |cart| :: cart[i].price >= 0 && cart[i].quantity >= 0
    ensures Subtotal(cart) >= 0
    decreases |cart|
  {
    if cart != [] {
      var last := cart[|cart| - 1];
      assert last.price >= 0 && last.quantity >= 0;
      assert LineTotal(last) >= 0;
      SubtotalNonNegative(cart[..|cart| - 1]);
    }
  }

  /** The subtotal of a concatenation is the sum of the parts' subtotals. */
  lemma {:induction false} SubtotalConcat(a: seq<CartItem>, b: seq<CartItem>)
    ensures Subtotal(a + b) == Subtotal(a) + Subtotal(b)
    decreases |b|
  {
    if b == [] {
      assert a + b == a;
    } else {
      var b' := b[..|b| - 1];
      assert (a + b)[..|a + b| - 1] == a + b';
      assert (a + b)[|a + b| - 1] == b[|b| - 1];
      SubtotalConcat(a, b');
    }
  }

  /** Replacing one line changes the subtotal by exactly the difference of
      the two lines' totals. */
  lemma SubtotalReplace(s: seq<CartItem>, k: nat, x: CartItem)
    requires k < |s|
    ensures Subtotal(s[k := x]) == Subtotal(s) - LineTotal(s[k]) + LineTotal(x)
  {
    assert s == s[..k] + [s[k]] + s[k + 1..];
    assert s[k := x] == s[..k] + [x] + s[k + 1..];
    SubtotalConcat(s[..k] + [s[k]], s[k + 1..]);
    SubtotalConcat(s[..k], [s[k]]);
    SubtotalConcat(s[..k] + [x], s[k + 1..]);
    SubtotalConcat(s[..k], [x]);
    assert [s[k]][..0] == [] && [x][..0] == [];
  }

  /** One unit more or less on a line moves its total by one unit price. */
  lemma LineTotalStep(it: CartItem, d: int)
    requires d == 1 || d == -1
    ensures LineTotal(it.(quantity := it.quantity + d)) == LineTotal(it) + d * it.price
  {
    assert it.price * (it.quantity + d) == it.price * it.quantity + it.price * d;
  }

  /** One unit more or less on one line moves the subtotal by one unit price. */
  lemma SubtotalStep(s: seq<CartItem>, k: nat, d: int)
    requires k < |s| && (d == 1 || d == -1)
    ensures Subtotal(s[k := s[k].(quantity := s[k].quantity + d)]) == Subtotal(s) + d * s[k].price
  {
    SubtotalReplace(s, k, s[k].(quantity := s[k].quantity + d));
    LineTotalStep(s[k], d);
  }

  /** The subtotal follows `addToCart` of a new product: the payload's whole
      line total is added. */
  lemma AddedNewSubtotal(s: seq<CartItem>, p: CartItem)
    requires Absent(s, p.id)
    ensures Subtotal(Added(s, p)) == Subtotal(s) + LineTotal(p)
  {
    SubtotalConcat(s, [p]);
    assert [p][..0] == [];
  }

  /** The subtotal follows `addToCart` of a product already in the cart: its
      unit price is added once, whatever the payload's quantity. */
  lemma AddedExistingSubtotal(s: seq<CartItem>, p: CartItem, k: nat)
    requires UniqueIds(s) && k < |s| && s[k].id == p.id
    ensures Subtotal(Added(s, p)) == Subtotal(s) + s[k].price
  {
    AddedExisting(s, p, k);
    assert Added(s, p) == s[k := s[k].(quantity := s[k].quantity + 1)];
    SubtotalStep(s, k, 1);
  }

  /** The subtotal follows `removeFromCart`: the removed line's total is
      subtracted, and nothing else. */
  lemma RemovedSubtotal(s: seq<CartItem>, k: nat)
    requires UniqueIds(s) && k < |s|
    ensures Subtotal(Removed(s, s[k].id)) == Subtotal(s) - LineTotal(s[k])
  {
    RemovedExisting(s, k);
    SubtotalDrop(s, k);
  }

  /** Dropping one line takes exactly its total off the subtotal. */
  lemma SubtotalDrop(s: seq<CartItem>, k: nat)
    requires k < |s|
    ensures Subtotal(s[..k] + s[k + 1..]) == Subtotal(s) - LineTotal(s[k])
  {
    SplitAt(s, k);
    SubtotalAround(s[..k], s[k], s[k + 1..]);
  }

  /** One line between two runs adds its own total to theirs. */
  lemma SubtotalAround(a: seq<CartItem>, x: CartItem, b: seq<CartItem>)
    ensures Subtotal(a + [x] + b) == Subtotal(a) + LineTotal(x) + Subtotal(b)
    ensures Subtotal(a + b) == Subtotal(a) + Subtotal(b)
  {
    SubtotalConcat(a, b);
    SubtotalConcat(a + [x], b);
    SubtotalConcat(a, [x]);
    assert [x][..0] == [];
  }

  /** The subtotal follows `increaseQty`: one unit price more. */
  lemma IncreasedSubtotal(s: seq<CartItem>, k: nat)
    requires UniqueIds(s) && k < |s|
    ensures Subtotal(Increased(s, s[k].id)) == Subtotal(s) + s[k].price
  {
    assert Increased(s, s[k].id) == s[k := s[k].(quantity := s[k].quantity + 1)];
    SubtotalStep(s, k, 1);
  }

  /** The subtotal follows `decreaseQty`: one unit price less, or no change
      when the line holds a single unit. */
  lemma DecreasedSubtotal(s: seq<CartItem>, k: nat)
    requires UniqueIds(s) && k < |s|
    ensures Subtotal(Decreased(s, s[k].id)) == Subtotal(s) - (if s[k].quantity > 1 then s[k].price else 0)
  {
    if s[k].quantity > 1 {
      assert Decreased(s, s[k].id) == s[k := s[k].(quantity := s[k].quantity + -1)];
      SubtotalStep(s, k, -1);
    } else {
      assert Decreased(s, s[k].id) == s;
    }
  }

  /** One entry of `items`, the first payload shape. */
  datatype BackendItem = BackendItem(productId: int, quantity: int, price: int)

  /** One entry of `cartItems`, the second payload shape. */
  datatype AltItem = AltItem(id: int, quantity: int, price: int)

  /** The order body: both line shapes and both total fields. */
  datatype OrderPayload = OrderPayload(items: seq<BackendItem>, cartItems: seq<AltItem>, total: int, totalAmount: int)

  /** `buildPayload`: both shapes list the cart's lines in cart order, and
      both totals are the cart's subtotal. */
  function BuildPayload(cart: seq<CartItem>): (p: OrderPayload)
    ensures |p.items| == |cart| && |p.cartItems| == |cart|
    ensures forall i | 0 <= i < |cart| ::
      p.items[i].productId == cart[i].id && p.items[i].quantity == cart[i].quantity && p.items[i].price == cart[i].price
    ensures forall i | 0 <= i < |cart| ::
      p.cartItems[i].id == cart[i].id && p.cartItems[i].quantity == cart[i].quantity && p.cartItems[i].price == cart[i].price
    ensures p.total == p.totalAmount == Subtotal(cart)
  {
    var items := seq(|cart|, i requires 0 <= i < |cart| => BackendItem(cart[i].id, cart[i].quantity, cart[i].price));
    var alt := seq(|cart|, i requires 0 <= i < |cart| => AltItem(cart[i].id, cart[i].quantity, cart[i].price));
    var t := Subtotal(cart);
    OrderPayload(items, alt, t, t)
  }

  /** What a backend reading the `items` shape would recompute as the total. */
  function ItemsTotal(items: seq<BackendItem>): int
    decreases |items|
  {
    if items == [] then 0 else ItemsTotal(items[..|items| - 1]) + items[|items| - 1].price * items[|items| - 1].quantity
  }

  /** What a backend reading the `cartItems` shape would recompute as the total. */
  function AltTotal(items: seq<AltItem>): int
    decreases |items|
  {
    if items == [] then 0 else AltTotal(items[..|items| - 1]) + items[|items| - 1].price * items[|items| - 1].quantity
  }

  /** Whichever shape the backend reads, recomputing the total from its
      lines gives the `total` and `totalAmount` the payload carries. */
  lemma {:induction false} PayloadTotalsAgree(cart: seq<CartItem>)
    ensures ItemsTotal(BuildPayload(cart).items) == BuildPayload(cart).total
    ensures AltTotal(BuildPayload(cart).cartItems) == BuildPayload(cart).totalAmount
    decreases |cart|
  {
    if cart != [] {
      var front := cart[..|cart| - 1];
      PayloadTotalsAgree(front);
      var p, q := BuildPayload(cart), BuildPayload(front);
      assert p.items[..|p.items| - 1] == q.items;
      assert p.cartItems[..|p.cartItems| - 1] == q.cartItems;
    }
  }

  /** The summary box: subtotal, shipping and total. */
  datatype Summary = Summary(subtotal: int, shipping: int, total: int)

  /** The displayed summary: shipping is always zero and the displayed total
      is the amount the order payload sends. */
  function DisplayedSummary(cart: seq<CartItem>): (s: Summary)
    ensures s.shipping == 0 && s.total == s.subtotal + s.shipping
    ensures s.subtotal == BuildPayload(cart).total
  {
    var t := Subtotal(cart);
    Summary(t, 0, t)
  }

  const LoginRequiredMessage := "You must be logged in to place an order."
  const EmptyCartMessage := "Your cart is empty."
  const OrderFailedMessage := "Could not place order."

  /** How the order post ends: accepted, or failed with the server's message if any. */
  datatype PostOutcome = Accepted | Failed(message: Option<string>)

  /** The checkout page's own state, over the shared cart store. */
  class CheckoutPage {
    const store: CartStore
    var loading: bool
    var error: Option<string>

    constructor (store: CartStore)
      ensures this.store == store && !loading && error == None
    {
      this.store := store;
      loading := false;
      error := None;
    }

    /** `placeOrder` up to the post: the login guard first, then the
        empty-cart guard; only when both pass is the error cleared, `loading`
        set and the payload sent. The cart is never changed here. */
    method PlaceOrder(signedIn: bool) returns (sent: Option<OrderPayload>)
      modifies this`loading, this`error
      ensures unchanged(store)
      ensures !signedIn ==> sent == None && error == Some(LoginRequiredMessage) && loading == old(loading)
      ensures signedIn && store.items == [] ==> sent == None && error == Some(EmptyCartMessage) && loading == old(loading)
      ensures signedIn && store.items != [] ==> sent == Some(BuildPayload(store.items)) && error == None && loading
    {
      if !signedIn {
        error := Some(LoginRequiredMessage);
        return None;
      }
      if |store.items| == 0 {
        error := Some(EmptyCartMessage);
        return None;
      }
      error := None;
      loading := true;
      sent := Some(BuildPayload(store.items));
    }

    /** `placeOrder` after the post: `loading` is cleared either way; on
        success the cart is emptied, on failure it is left as it was and the
        server's message (or the fallback) is shown. */
    method SettleOrder(outcome: PostOutcome)
      modifies this`loading, this`error, store
      ensures !loading
      ensures outcome.Accepted? ==> store.items == [] && error == old(error)
      ensures outcome.Failed? ==> store.items == old(store.items)
      ensures outcome.Failed? ==> error == Some(Coalesce(outcome.message, OrderFailedMessage))
    {
      match outcome
      case Accepted =>
        loading := false;
        store.ClearCart();
      case Failed(message) =>
        loading := false;
        error := Some(Coalesce(message, OrderFailedMessage));
    }
  }
}
