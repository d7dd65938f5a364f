/** The client cart slice: a list of cart lines and the five reducers that
    change it (`addToCart`, `removeFromCart`, `increaseQty`, `decreaseQty`,
    `clearCart`). The reducers are first given as pure functions on the list
    (the specification), then as the methods of `CartStore`, which update the
    list in place as the slice's draft state does. */
module CartSlice {
  import opened JsValues

  /** One line of the cart, as added from a product page. */
  datatype CartItem = CartItem(id: int, name: string, price: int, quantity: int, image: Option<string>)

  /** The slice's actions, one per reducer. */
  datatype CartAction =
    | Add(payload: CartItem)
    | Remove(id: int)
    | Increase(id: int)
    | Decrease(id: int)
    | Clear

  /** No two lines share a product id. */
  ghost predicate UniqueIds(s: seq<CartItem>)
  {
    forall i, j | 0 <= i < j < |s| :: s[i].id != s[j].id
  }

  /** Every line holds at least one unit. */
  ghost predicate QuantitiesPositive(s: seq<CartItem>)
  {
    forall i | 0 <= i < |s| :: s[i].quantity >= 1
  }

  /** No line carries the product id. */
  ghost predicate Absent(s: seq<CartItem>, id: int)
  {
    forall j | 0 <= j < |s| :: s[j].id != id
  }

  /** The position `items.find` stops at: the first line with the id, if any. */
  function IndexOf(s: seq<CartItem>, id: int): (r: Option<nat>)
    ensures r.None? <==> Absent(s, id)
    ensures r.Some? ==> r.value < |s| && s[r.value].id == id
    ensures r.Some? ==> forall j | 0 <= j < r.value :: s[j].id != id
  {
    if s == [] then None
    else if s[0].id == id then Some(0)
    else
      match IndexOf(s[1..], id)
      case None => None
      case Some(k) => Some(k + 1)
  }

  /** With unique ids, the line holding the id is the one `find` stops at. */
  lemma IndexOfUnique(s: seq<CartItem>, k: nat)
    requires UniqueIds(s) && k < |s|
    ensures IndexOf(s, s[k].id) == Some(k)
  {
  }

  /** `addToCart`: the first line with the payload's id gains one unit (the
      payload's own quantity is ignored); otherwise the payload is appended. */
  function Added(s: seq<CartItem>, p: CartItem): (r: seq<CartItem>)
    ensures Absent(s, p.id) ==> r == s + [p]
    ensures UniqueIds(s) ==> forall k | 0 <= k < |s| && s[k].id == p.id ::
      r == s[k := s[k].(quantity := s[k].quantity + 1)]
    ensures UniqueIds(s) ==> UniqueIds(r)
    ensures QuantitiesPositive(s) && p.quantity >= 1 ==> QuantitiesPositive(r)
  {
    match IndexOf(s, p.id)
    case Some(k) =>
      var r := s[k := s[k].(quantity := s[k].quantity + 1)];
      assert forall j | 0 <= j < |s| :: r[j].id == s[j].id;
      assert UniqueIds(s) ==> forall k' | 0 <= k' < |s| && s[k'].id == p.id :: k' == k by {
        if UniqueIds(s) {
          forall k' | 0 <= k' < |s| && s[k'].id == p.id ensures k' == k {
            IndexOfUnique(s, k');
          }
        }
      }
      r
    case None =>
      var r := s + [p];
      assert forall j | 0 <= j < |s| :: r[j] == s[j];
      r
  }

  /** `addToCart` of a product already in the cart: that line gains exactly
      one unit, the payload's own quantity is ignored, the length is
      unchanged and every other line is untouched. */
  lemma AddedExisting(s: seq<CartItem>, p: CartItem, k: nat)
    requires UniqueIds(s) && k < |s| && s[k].id == p.id
    ensures var r := Added(s, p);
      |r| == |s| && r[k] == s[k].(quantity := s[k].quantity + 1) &&
      forall j | 0 <= j < |s| && j != k :: r[j] == s[j]
  {
    IndexOfUnique(s, k);
  }

  /** `removeFromCart`: keep exactly the lines whose id differs, in order. */
  function Removed(s: seq<CartItem>, id: int): (r: seq<CartItem>)
    ensures |r| <= |s|
    ensures forall i | 0 <= i < |r| :: r[i].id != id && r[i] in s
    ensures Absent(s, id) ==> r == s
  {
    if s == [] then []
    else if s[0].id == id then Removed(s[1..], id)
    else [s[0]] + Removed(s[1..], id)
  }

  /** `removeFromCart` of an id held by a line, with unique ids: exactly that
      line is dropped and the lines before and after it keep their order. */
  lemma RemovedExisting(s: seq<CartItem>, k: nat)
    requires UniqueIds(s) && k < |s|
    ensures Removed(s, s[k].id) == s[..k] + s[k + 1..]
  {
    var id := s[k].id;
    var a, b := s[..k], s[k + 1..];
    assert Removed(a + [s[k]], id) == a by {
      NeighboursAbsent(s, k);
      RemovedConcat(a, [s[k]], id);
      assert Removed([s[k]], id) == [] by {
        assert [s[k]][1..] == [];
      }
    }
    assert Removed(b, id) == b by {
      NeighboursAbsent(s, k);
    }
    calc {
      Removed(s, id);
      { SplitAt(s, k); }
      Removed((a + [s[k]]) + b, id);
      { RemovedConcat(a + [s[k]], b, id); }
      Removed(a + [s[k]], id) + Removed(b, id);
    }
  }

  /** A sequence is its part before k, its element k and its part after k. */
  lemma SplitAt(s: seq<CartItem>, k: nat)
    requires k < |s|
    ensures s == s[..k] + [s[k]] + s[k + 1..]
  {
  }

  /** With unique ids, no other line carries the id of line k. */
  lemma NeighboursAbsent(s: seq<CartItem>, k: nat)
    requires UniqueIds(s) && k < |s|
    ensures Absent(s[..k], s[k].id) && Absent(s[k + 1..], s[k].id)
  {
    var b := s[k + 1..];
    forall j | 0 <= j < |b| ensures b[j].id != s[k].id {
      assert b[j] == s[k + 1 + j];
    }
  }

  /** `removeFromCart` keeps every line whose id differs. */
  lemma {:induction false} RemovedKeepsOthers(s: seq<CartItem>, id: int, x: CartItem)
    requires x in s && x.id != id
    ensures x in Removed(s, id)
  {
    if s[0] != x {
      assert x in s[1..];
      RemovedKeepsOthers(s[1..], id, x);
    }
  }

  /** `removeFromCart` keeps the ids unique. */
  lemma {:induction false} RemovedKeepsUnique(s: seq<CartItem>, id: int)
    requires UniqueIds(s)
    ensures UniqueIds(Removed(s, id))
  {
    if s != [] {
      var rest := Removed(s[1..], id);
      assert UniqueIds(s[1..]);
      RemovedKeepsUnique(s[1..], id);
      if s[0].id != id {
        var r := [s[0]] + rest;
        forall j | 0 <= j < |rest| ensures rest[j].id != s[0].id {
          var m :| 0 <= m < |s[1..]| && s[1..][m] == rest[j];
          assert s[m + 1] == rest[j];
        }
        assert UniqueIds(r);
      }
    }
  }

  /** `removeFromCart` keeps every quantity at least 1. */
  lemma RemovedKeepsPositive(s: seq<CartItem>, id: int)
    requires QuantitiesPositive(s)
    ensures QuantitiesPositive(Removed(s, id))
  {
    var r := Removed(s, id);
    forall i | 0 <= i < |r| ensures r[i].quantity >= 1 {
      var j :| 0 <= j < |s| && s[j] == r[i];
    }
  }

  /** `increaseQty`: the first line with the id gains one unit; an absent id
      changes nothing and is not an error. */
  function Increased(s: seq<CartItem>, id: int): (r: seq<CartItem>)
    ensures |r| == |s|
    ensures Absent(s, id) ==> r == s
    ensures UniqueIds(s) ==> forall k | 0 <= k < |s| && s[k].id == id ::
      r == s[k := s[k].(quantity := s[k].quantity + 1)]
    ensures forall j | 0 <= j < |s| :: r[j].id == s[j].id && r[j].quantity >= s[j].quantity
  {
    match IndexOf(s, id)
    case Some(k) =>
      assert UniqueIds(s) ==> forall k' | 0 <= k' < |s| && s[k'].id == id :: k' == k by {
        if UniqueIds(s) {
          forall k' | 0 <= k' < |s| && s[k'].id == id ensures k' == k {
            IndexOfUnique(s, k');
          }
        }
      }
      s[k := s[k].(quantity := s[k].quantity + 1)]
    case None => s
  }

  /** `decreaseQty`: the first line with the id loses one unit, but only when
      it holds more than one; a line is never removed and never drops below 1. */
  function Decreased(s: seq<CartItem>, id: int): (r: seq<CartItem>)
    ensures |r| == |s|
    ensures Absent(s, id) ==> r == s
    ensures UniqueIds(s) ==> forall k | 0 <= k < |s| && s[k].id == id ::
      r == if s[k].quantity > 1 then s[k := s[k].(quantity := s[k].quantity - 1)] else s
    ensures forall j | 0 <= j < |s| :: r[j].id == s[j].id
    ensures forall j | 0 <= j < |s| :: r[j].quantity == s[j].quantity || 1 <= r[j].quantity == s[j].quantity - 1
  {
    match IndexOf(s, id)
    case Some(k) =>
      assert UniqueIds(s) ==> forall k' | 0 <= k' < |s| && s[k'].id == id :: k' == k by {
        if UniqueIds(s) {
          forall k' | 0 <= k' < |s| && s[k'].id == id ensures k' == k {
            IndexOfUnique(s, k');
          }
        }
      }
      if s[k].quantity > 1 then s[k := s[k].(quantity := s[k].quantity - 1)] else s
    case None => s
  }

  /** The slice's reducer: one action applied to the item list. */
  function Reduce(s: seq<CartItem>, a: CartAction): (r: seq<CartItem>)
    ensures a.Add? ==> |r| == |s| || r == s + [a.payload]
    ensures a.Remove? ==> |r| <= |s| && Absent(r, a.id)
    ensures a.Increase? || a.Decrease? ==> |r| == |s| && forall j | 0 <= j < |s| :: r[j].id == s[j].id
    ensures a.Clear? ==> r == []
  {
    match a
    case Add(p) => Added(s, p)
    case Remove(id) => Removed(s, id)
    case Increase(id) => Increased(s, id)
    case Decrease(id) => Decreased(s, id)
    case Clear => []
  }

  /** The actions dispatched in order, from first to last. */
  function ReduceAll(s: seq<CartItem>, acts: seq<CartAction>): (r: seq<CartItem>)
    ensures |r| <= |s| + |acts|
    decreases |acts|
  {
    if acts == [] then s else ReduceAll(Reduce(s, acts[0]), acts[1..])
  }

  /** Whatever came before, a cart whose last action was `clearCart` is empty. */
  lemma {:induction false} ClearLastEmpties(s: seq<CartItem>, acts: seq<CartAction>)
    requires acts != [] && acts[|acts| - 1].Clear?
    ensures ReduceAll(s, acts) == []
    decreases |acts|
  {
    var rest := acts[1..];
    assert ReduceAll(s, acts) == ReduceAll(Reduce(s, acts[0]), rest);
    if rest == [] {
      assert acts[0] == Clear;
      assert ReduceAll(Reduce(s, Clear), []) == Reduce(s, Clear) == [];
    } else {
      assert rest[|rest| - 1] == acts[|acts| - 1];
      ClearLastEmpties(Reduce(s, acts[0]), rest);
    }
  }

  /** Every `addToCart` in the sequence carries at least one unit. */
  ghost predicate PayloadsPositive(acts: seq<CartAction>)
  {
    forall i | 0 <= i < |acts| && acts[i].Add? :: acts[i].payload.quantity >= 1
  }

  /** `removeFromCart` twice removes nothing more. */
  lemma RemovedIdempotent(s: seq<CartItem>, id: int)
    ensures Removed(Removed(s, id), id) == Removed(s, id)
  {
  }

  /** `removeFromCart` keeps the surviving lines in their original order:
      filtering a concatenation filters each part. */
  lemma {:induction false} RemovedConcat(a: seq<CartItem>, b: seq<CartItem>, id: int)
    ensures Removed(a + b, id) == Removed(a, id) + Removed(b, id)
  {
    if a != [] {
      var h := if a[0].id == id then [] else [a[0]];
      calc {
        Removed(a + b, id);
        { assert (a + b)[0] == a[0];
          assert (a + b)[1..] == a[1..] + b; }
        h + Removed(a[1..] + b, id);
        { RemovedConcat(a[1..], b, id); }
        h + (Removed(a[1..], id) + Removed(b, id));
        { AppendAssoc(h, Removed(a[1..], id), Removed(b, id)); }
        (h + Removed(a[1..], id)) + Removed(b, id);
        Removed(a, id) + Removed(b, id);
      }
    } else {
      assert a + b == b;
    }
  }

  /** Concatenation of cart lists is associative. */
  lemma AppendAssoc(x: seq<CartItem>, y: seq<CartItem>, z: seq<CartItem>)
    ensures x + (y + z) == (x + y) + z
  {
  }

  /** Each reducer keeps the ids unique, and keeps every quantity at least 1
      when an added payload carries at least one unit. */
  lemma ReduceKeepsInvariants(s: seq<CartItem>, a: CartAction)
    ensures UniqueIds(s) ==> UniqueIds(Reduce(s, a))
    ensures QuantitiesPositive(s) && (a.Add? ==> a.payload.quantity >= 1) ==> QuantitiesPositive(Reduce(s, a))
  {
    match a
    case Add(p) =>
    case Remove(id) =>
      if UniqueIds(s) { RemovedKeepsUnique(s, id); }
      if QuantitiesPositive(s) { RemovedKeepsPositive(s, id); }
    case Increase(id) =>
      var r := Increased(s, id);
      assert forall j | 0 <= j < |s| :: r[j].id == s[j].id;
    case Decrease(id) =>
    case Clear =>
  }

  /** Any sequence of reducers keeps the ids unique and, when every added
      payload carries at least one unit, every quantity at least 1. */
  lemma {:induction false} ReduceAllKeepsInvariants(s: seq<CartItem>, acts: seq<CartAction>)
    requires UniqueIds(s)
    ensures UniqueIds(ReduceAll(s, acts))
    ensures QuantitiesPositive(s) && PayloadsPositive(acts) ==> QuantitiesPositive(ReduceAll(s, acts))
    decreases |acts|
  {
    if acts != [] {
      ReduceKeepsInvariants(s, acts[0]);
      assert PayloadsPositive(acts) ==> PayloadsPositive(acts[1..]) by {
        if PayloadsPositive(acts) {
          forall i | 0 <= i < |acts[1..]| && acts[1..][i].Add?
            ensures acts[1..][i].payload.quantity >= 1
          {
            assert acts[1..][i] == acts[i + 1];
          }
        }
      }
      assert PayloadsPositive(acts) ==> (acts[0].Add? ==> acts[0].payload.quantity >= 1);
      ReduceAllKeepsInvariants(Reduce(s, acts[0]), acts[1..]);
    }
  }

  /** The same action dispatched n times. */
  function Repeated(a: CartAction, n: nat): (r: seq<CartAction>)
    ensures |r| == n
  {
    if n == 0 then [] else [a] + Repeated(a, n - 1)
  }

  /** Dispatching an action n times is dispatching it once, then n - 1 times. */
  lemma ReduceRepeated(s: seq<CartItem>, a: CartAction, n: nat)
    requires n >= 1
    ensures ReduceAll(s, Repeated(a, n)) == ReduceAll(Reduce(s, a), Repeated(a, n - 1))
  {
    assert Repeated(a, n)[1..] == Repeated(a, n - 1);
  }

  /** Adding a product already in the cart n times raises its line by exactly n. */
  lemma {:induction false} AddRepeatedExisting(s: seq<CartItem>, p: CartItem, k: nat, n: nat)
    requires UniqueIds(s) && k < |s| && s[k].id == p.id
    ensures ReduceAll(s, Repeated(Add(p), n)) == s[k := s[k].(quantity := s[k].quantity + n)]
    decreases n
  {
    if n == 0 {
      assert s[k := s[k]] == s;
    } else {
      var s' := s[k := s[k].(quantity := s[k].quantity + 1)];
      AddOnceExisting(s, p, k, n);
      AddRepeatedExisting(s', p, k, n - 1);
      BumpOnceMore(s, k, n);
    }
  }

  /** The first of n adds of a product already in the cart raises its line by
      one, and the ids stay unique for the rest. */
  lemma AddOnceExisting(s: seq<CartItem>, p: CartItem, k: nat, n: nat)
    requires UniqueIds(s) && k < |s| && s[k].id == p.id && n >= 1
    ensures var s' := s[k := s[k].(quantity := s[k].quantity + 1)];
      UniqueIds(s') && ReduceAll(s, Repeated(Add(p), n)) == ReduceAll(s', Repeated(Add(p), n - 1))
  {
    assert Added(s, p) == s[k := s[k].(quantity := s[k].quantity + 1)];
    ReduceRepeated(s, Add(p), n);
  }

  /** Raising one line's quantity by one and then by n - 1 raises it by n. */
  lemma BumpOnceMore(s: seq<CartItem>, k: nat, n: nat)
    requires k < |s| && n >= 1
    ensures s[k := s[k].(quantity := s[k].quantity + 1)][k := s[k].(quantity := s[k].quantity + 1).(quantity := s[k].quantity + 1 + (n - 1))]
      == s[k := s[k].(quantity := s[k].quantity + n)]
  {
  }

  /** Adding a product absent from the cart n + 1 times yields exactly one new
      line for it, holding the payload's quantity plus n. */
  lemma AddRepeatedAbsent(s: seq<CartItem>, p: CartItem, n: nat)
    requires UniqueIds(s) && Absent(s, p.id)
    ensures ReduceAll(s, Repeated(Add(p), n + 1)) == s + [p.(quantity := p.quantity + n)]
  {
    AddOnceAbsent(s, p, n);
    AddRepeatedExisting(s + [p], p, |s|, n);
    BumpLast(s, p, n);
  }

  /** The first of n + 1 adds of a product absent from the cart appends it,
      and the ids stay unique for the rest. */
  lemma AddOnceAbsent(s: seq<CartItem>, p: CartItem, n: nat)
    requires UniqueIds(s) && Absent(s, p.id)
    ensures UniqueIds(s + [p]) && ReduceAll(s, Repeated(Add(p), n + 1)) == ReduceAll(s + [p], Repeated(Add(p), n))
  {
    assert Added(s, p) == s + [p];
    ReduceRepeated(s, Add(p), n + 1);
  }

  /** Raising the quantity of an appended line is appending the raised line. */
  lemma BumpLast(s: seq<CartItem>, p: CartItem, n: int)
    ensures var s' := s + [p];
      s'[|s| := s'[|s|].(quantity := s'[|s|].quantity + n)] == s + [p.(quantity := p.quantity + n)]
  {
  }

  /** The cart state the slice stores, updated in place by its reducers. */
  class CartStore {
    var items: seq<CartItem>

    /** The slice's invariant: unique ids, and at least one unit per line. */
    ghost predicate Valid()
      reads this
    {
      UniqueIds(items) && QuantitiesPositive(items)
    }

    /** `initialState`: an empty cart. */
    constructor ()
      ensures items == [] && Valid()
    {
      items := [];
    }

    /** `addToCart`, as the in-place bump or push. */
    method AddToCart(payload: CartItem)
      modifies this
      ensures items == Added(old(items), payload)
      ensures old(Valid()) && payload.quantity >= 1 ==> Valid()
    {
      var k := Find(items, payload.id);
      match k
      case Some(i) =>
        items := items[i := items[i].(quantity := items[i].quantity + 1)];
      case None =>
        items := items + [payload];
    }

    /** `removeFromCart`, as the filter that rebuilds the list. */
    method RemoveFromCart(id: int)
      modifies this
      ensures items == Removed(old(items), id)
      ensures old(Valid()) ==> Valid()
    {
      var s := items;
      var kept: seq<CartItem> := [];
      var i := 0;
      while i < |s|
        invariant 0 <= i <= |s|
        invariant kept == Removed(s[..i], id)
      {
        assert Removed(s[..i + 1], id) == kept + if s[i].id != id then [s[i]] else [] by {
          assert s[..i + 1] == s[..i] + [s[i]];
          RemovedConcat(s[..i], [s[i]], id);
          assert [s[i]][1..] == [];
        }
        if s[i].id != id {
          kept := kept + [s[i]];
        }
        i := i + 1;
      }
      assert s[..i] == s;
      items := kept;
      ReduceKeepsInvariants(s, Remove(id));
    }

    /** `increaseQty`. */
    method IncreaseQty(id: int)
      modifies this
      ensures items == Increased(old(items), id)
      ensures old(Valid()) ==> Valid()
    {
      var k := Find(items, id);
      if k.Some? {
        items := items[k.value := items[k.value].(quantity := items[k.value].quantity + 1)];
      }
      ReduceKeepsInvariants(old(items), Increase(id));
    }

    /** `decreaseQty`. */
    method DecreaseQty(id: int)
      modifies this
      ensures items == Decreased(old(items), id)
      ensures old(Valid()) ==> Valid()
    {
      var k := Find(items, id);
      if k.Some? && items[k.value].quantity > 1 {
        items := items[k.value := items[k.value].(quantity := items[k.value].quantity - 1)];
      }
      ReduceKeepsInvariants(old(items), Decrease(id));
    }

    /** `clearCart`. */
    method ClearCart()
      modifies this
      ensures items == [] && Valid()
    {
      items := [];
    }

    /** The slice's reducer entry point: one dispatched action. */
    method Dispatch(a: CartAction)
      modifies this
      ensures items == Reduce(old(items), a)
      ensures old(Valid()) && (a.Add? ==> a.payload.quantity >= 1) ==> Valid()
    {
      match a
      case Add(p) => AddToCart(p);
      case Remove(id) => RemoveFromCart(id);
      case Increase(id) => IncreaseQty(id);
      case Decrease(id) => DecreaseQty(id);
      case Clear => ClearCart();
    }
  }

  /** `items.find(item => item.id === id)`, scanning from the front; returns
      the position found so that the caller can update that line in place. */
  method Find(s: seq<CartItem>, id: int) returns (r: Option<nat>)
    ensures r == IndexOf(s, id)
  {
    var i := 0;
    while i < |s|
      invariant 0 <= i <= |s|
      invariant forall j | 0 <= j < i :: s[j].id != id
    {
      if s[i].id == id {
        return Some(i);
      }
      i := i + 1;
    }
    return None;
  }
}
