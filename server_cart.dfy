/** The cart page backed by the server's cart: the fetched lines are shown
    sorted by `cartId`, quantity changes are clamped to at least 1 before
    they are sent, and every change is followed by a reload. Each request is
    abstracted to its outcome: the reload's response, or none when a request
    failed. */
module ServerCart {
  import opened JsValues

  /** One line of the server's cart, with price and quantity already numbers. */
  datatype ServerLine = ServerLine(cartId: int, productId: int, name: string, image: string, price: int, quantity: int)

  /** Lines in ascending `cartId` order. */
  ghost predicate SortedByCartId(s: seq<ServerLine>)
  {
    forall i, j | 0 <= i < j < |s| :: s[i].cartId <= s[j].cartId
  }

  /** Insert one line before the first line with a larger or equal `cartId`. */
  function Insert(x: ServerLine, s: seq<ServerLine>): (r: seq<ServerLine>)
    requires SortedByCartId(s)
    ensures SortedByCartId(r)
    ensures multiset(r) == multiset(s) + multiset{x}
  {
    if s == [] || x.cartId <= s[0].cartId then
      [x] + s
    else
      var rest := Insert(x, s[1..]);
      InsertAfterHead(x, s, rest);
      [s[0]] + rest
  }

  /** The inductive step of `Insert`: when the head stays first, putting it
      in front of the insertion into the tail keeps the order. */
  lemma InsertAfterHead(x: ServerLine, s: seq<ServerLine>, rest: seq<ServerLine>)
    requires SortedByCartId(s) && s != [] && s[0].cartId < x.cartId
    requires SortedByCartId(rest) && multiset(rest) == multiset(s[1..]) + multiset{x}
    ensures SortedByCartId([s[0]] + rest)
    ensures multiset([s[0]] + rest) == multiset(s) + multiset{x}
  {
    forall j | 0 <= j < |rest| ensures s[0].cartId <= rest[j].cartId {
      assert rest[j] in multiset(rest);
      if rest[j] != x {
        assert rest[j] in multiset(s[1..]);
        var m :| 0 <= m < |s[1..]| && s[1..][m] == rest[j];
        assert s[m + 1] == rest[j];
      }
    }
    assert s == [s[0]] + s[1..];
  }

  /** The `.sort((a, b) => a.cartId - b.cartId)` step of `loadCart`. */
  function SortByCartId(s: seq<ServerLine>): (r: seq<ServerLine>)
    ensures SortedByCartId(r)
    ensures multiset(r) == multiset(s)
    ensures |r| == |s|
  {
    if s == [] then []
    else
      assert s == [s[0]] + s[1..];
      Insert(s[0], SortByCartId(s[1..]))
  }

  /** What one line contributes: price times quantity. */
  function LineTotal(l: ServerLine): int
  {
    l.price * l.quantity
  }

  /** `cart.reduce((sum, item) => sum + item.price * item.quantity, 0)`. */
  function Total(cart: seq<ServerLine>): (t: int)
    ensures cart == [] ==> t == 0
    decreases |cart|
  {
    if cart == [] then 0 else Total(cart[..|cart| - 1]) + LineTotal(cart[|cart| - 1])
  }

  /** The total of a concatenation is the sum of the parts' totals. */
  lemma {:induction false} TotalConcat(a: seq<ServerLine>, b: seq<ServerLine>)
    ensures Total(a + b) == Total(a) + Total(b)
    decreases |b|
  {
    if b == [] {
      assert a + b == a;
    } else {
      var b' := b[..|b| - 1];
      assert (a + b)[..|a + b| - 1] == a + b';
      assert (a + b)[|a + b| - 1] == b[|b| - 1];
      TotalConcat(a, b');
    }
  }

  /** A line inserted anywhere adds its own total. */
  lemma {:induction false} TotalInsert(x: ServerLine, s: seq<ServerLine>)
    requires SortedByCartId(s)
    ensures Total(Insert(x, s)) == Total(s) + LineTotal(x)
  {
    TotalConcat([x], s);
    assert [x][..0] == [];
    if !(s == [] || x.cartId <= s[0].cartId) {
      TotalInsert(x, s[1..]);
      TotalConcat([s[0]], Insert(x, s[1..]));
      TotalConcat([s[0]], s[1..]);
      assert [s[0]][..0] == [];
      assert s == [s[0]] + s[1..];
    }
  }

  /** Sorting the fetched lines does not change the total shown. */
  lemma {:induction false} SortKeepsTotal(s: seq<ServerLine>)
    ensures Total(SortByCartId(s)) == Total(s)
  {
    if s != [] {
      SortKeepsTotal(s[1..]);
      TotalInsert(s[0], SortByCartId(s[1..]));
      TotalConcat([s[0]], s[1..]);
      assert [s[0]][..0] == [];
      assert s == [s[0]] + s[1..];
    }
  }

  /** `Math.max(1, qty)` in `updateQty`: the quantity actually sent. */
  function ClampQty(qty: int): (q: int)
    ensures q >= 1
    ensures qty >= 1 ==> q == qty
    ensures qty < 1 ==> q == 1
  {
    if qty < 1 then 1 else qty
  }

  /** The quantity the "-" button of a line asks for. */
  function MinusTarget(l: ServerLine): (q: int)
    ensures q >= 1
    ensures l.quantity > 1 ==> q == l.quantity - 1
    ensures l.quantity <= 1 ==> q == 1
  {
    ClampQty(l.quantity - 1)
  }

  /** The quantity the "+" button of a line asks for. */
  function PlusTarget(l: ServerLine): (q: int)
    ensures q >= 1
    ensures l.quantity >= 0 ==> q == l.quantity + 1
    ensures l.quantity < 0 ==> q == 1
  {
    ClampQty(l.quantity + 1)
  }

  /** On the same line, the "+" button never asks for less than the "-" button. */
  lemma ButtonTargets(l: ServerLine)
    ensures PlusTarget(l) >= MinusTarget(l)
  {
  }

  /** The body of the `PUT /cart/update/{cartId}` request. */
  datatype QtyUpdate = QtyUpdate(cartId: int, quantity: int)

  /** The cart page's state: the lines last loaded from the server. */
  class CartPage {
    var cart: seq<ServerLine>

    constructor ()
      ensures cart == []
    {
      cart := [];
    }

    /** `loadCart`: the response's lines, all of them, in ascending `cartId`. */
    method LoadCart(response: seq<ServerLine>)
      modifies this
      ensures cart == SortByCartId(response)
      ensures SortedByCartId(cart) && multiset(cart) == multiset(response)
      ensures |cart| == |response|
    {
      cart := SortByCartId(response);
      assert |multiset(cart)| == |multiset(response)|;
    }

    /** `updateQty`: the clamped quantity is sent, then the cart reloaded; a
        failed request leaves the shown cart as it was. */
    method UpdateQty(cartId: int, qty: int, reload: Option<seq<ServerLine>>) returns (sent: QtyUpdate)
      modifies this
      ensures sent == QtyUpdate(cartId, ClampQty(qty)) && sent.quantity >= 1
      ensures reload.Some? ==> cart == SortByCartId(reload.value)
      ensures reload.None? ==> cart == old(cart)
    {
      var q := ClampQty(qty);
      sent := QtyUpdate(cartId, q);
      if reload.Some? {
        LoadCart(reload.value);
      }
    }

    /** `removeItem`: the line's `cartId` is sent, then the cart reloaded. */
    method RemoveItem(cartId: int, reload: Option<seq<ServerLine>>) returns (sent: int)
      modifies this
      ensures sent == cartId
      ensures reload.Some? ==> cart == SortByCartId(reload.value)
      ensures reload.None? ==> cart == old(cart)
    {
      sent := cartId;
      if reload.Some? {
        LoadCart(reload.value);
      }
    }

    /** The "Proceed to Checkout" button is shown exactly when the cart has a
        line; when it is hidden the total shown is 0. */
    function CheckoutVisible(): (shown: bool)
      reads this
      ensures shown <==> |cart| > 0
      ensures !shown ==> Total(cart) == 0
    {
      |cart| > 0
    }
  }
}
