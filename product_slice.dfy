/** The product-list slice: `{products, loading, error}` and the three cases
    of the `fetchProducts` thunk (pending, fulfilled, rejected). The reducer
    is given as a pure function on the state, then as the methods of
    `ProductStore`, each of which may change only the fields its case assigns. */
module ProductSlice {
  import opened JsValues

  /** A catalog product as the server sends it. */
  datatype Product = Product(id: int, name: string, price: int, description: string, image: string)

  /** The slice's state. */
  datatype ProductState = ProductState(products: seq<Product>, loading: bool, error: Option<string>)

  /** `initialState`: no products, not loading, no error. */
  function InitialState(): (st: ProductState)
    ensures st.products == [] && !st.loading && st.error.None?
  {
    ProductState([], false, None)
  }

  const FallbackMessage := "Failed to load products"

  /** How `GET /products` ends: the response data, or a failure carrying the
      server's message if it sent one. */
  datatype FetchOutcome = Loaded(data: seq<Product>) | Failed(serverMessage: Option<string>)

  /** The actions the thunk dispatches. */
  datatype FetchAction = Pending | Fulfilled(payload: seq<Product>) | Rejected(message: string)

  /** The thunk's reject value: the server's message when it is a non-empty
      string, otherwise the fixed fallback; never empty. */
  function RejectValue(serverMessage: Option<string>): (m: string)
    ensures m != ""
    ensures serverMessage.Some? && serverMessage.value != "" ==> m == serverMessage.value
    ensures serverMessage.None? || serverMessage.value == "" ==> m == FallbackMessage
  {
    OrElse(serverMessage, FallbackMessage)
  }

  /** The action the thunk settles with. */
  function Settled(o: FetchOutcome): (a: FetchAction)
    ensures a != Pending
    ensures o.Loaded? ==> a == Fulfilled(o.data)
    ensures o.Failed? ==> a == Rejected(RejectValue(o.serverMessage))
  {
    match o
    case Loaded(data) => Fulfilled(data)
    case Failed(m) => Rejected(RejectValue(m))
  }

  /** The reducer's three cases. */
  function Reduce(st: ProductState, a: FetchAction): (r: ProductState)
    ensures r.loading <==> a.Pending?
    ensures a.Fulfilled? ==> r.products == a.payload
    ensures !a.Fulfilled? ==> r.products == st.products
    ensures a.Rejected? ==> r.error == Some(a.message)
    ensures !a.Rejected? ==> r.error == st.error
  {
    match a
    case Pending => st.(loading := true)
    case Fulfilled(p) => st.(products := p, loading := false)
    case Rejected(m) => st.(error := Some(m), loading := false)
  }

  /** The actions applied in order. */
  function ReduceAll(st: ProductState, acts: seq<FetchAction>): (r: ProductState)
    ensures r.products == st.products || exists i | 0 <= i < |acts| && acts[i].Fulfilled? :: r.products == acts[i].payload
    ensures r.error == st.error || exists i | 0 <= i < |acts| && acts[i].Rejected? :: r.error == Some(acts[i].message)
    decreases |acts|
  {
    if acts == [] then st
    else
      var r := ReduceAll(Reduce(st, acts[0]), acts[1..]);
      assert forall i | 0 <= i < |acts[1..]| :: acts[1..][i] == acts[i + 1];
      r
  }

  /** No case clears `error`: once a fetch has been rejected the message
      stays, through later pending and fulfilled fetches alike. */
  lemma {:induction false} ErrorIsNeverCleared(st: ProductState, acts: seq<FetchAction>)
    requires st.error.Some?
    ensures ReduceAll(st, acts).error.Some?
    decreases |acts|
  {
    if acts != [] {
      ErrorIsNeverCleared(Reduce(st, acts[0]), acts[1..]);
    }
  }

  /** After any non-empty run of actions, `loading` is true exactly when the
      last action was `pending`. */
  lemma {:induction false} LoadingFollowsLastAction(st: ProductState, acts: seq<FetchAction>)
    requires acts != []
    ensures ReduceAll(st, acts).loading <==> acts[|acts| - 1].Pending?
    decreases |acts|
  {
    if |acts| > 1 {
      LoadingFollowsLastAction(Reduce(st, acts[0]), acts[1..]);
    }
  }

  /** The slice's state, updated in place by the reducer's cases. */
  class ProductStore {
    var products: seq<Product>
    var loading: bool
    var error: Option<string>

    function State(): ProductState
      reads this
    {
      ProductState(products, loading, error)
    }

    constructor ()
      ensures State() == InitialState()
    {
      products := [];
      loading := false;
      error := None;
    }

    /** `fetchProducts.pending`: only `loading` changes, to true. */
    method OnPending()
      modifies this`loading
      ensures loading
      ensures State() == Reduce(old(State()), Pending)
    {
      loading := true;
    }

    /** `fetchProducts.fulfilled`: the list is replaced and `loading` cleared;
        a previous error stays. */
    method OnFulfilled(payload: seq<Product>)
      modifies this`products, this`loading
      ensures products == payload && !loading
      ensures State() == Reduce(old(State()), Fulfilled(payload))
    {
      products := payload;
      loading := false;
    }

    /** `fetchProducts.rejected`: the error is set and `loading` cleared; the
        list stays. */
    method OnRejected(payload: string)
      modifies this`error, this`loading
      ensures error == Some(payload) && !loading
      ensures State() == Reduce(old(State()), Rejected(payload))
    {
      error := Some(payload);
      loading := false;
    }

    /** One whole `fetchProducts` dispatch: pending, then the settled case. */
    method FetchProducts(outcome: FetchOutcome)
      modifies this
      ensures State() == Reduce(Reduce(old(State()), Pending), Settled(outcome))
    {
      OnPending();
      match outcome
      case Loaded(data) => OnFulfilled(data);
      case Failed(m) => OnRejected(RejectValue(m));
    }
  }
}
