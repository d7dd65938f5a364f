/** The order-history slice: `{orders, loading, error}` and the three cases
    of the `fetchOrders` thunk. Orders are kept as the server sends them, so
    their type is a parameter. */
module OrderSlice {
  import opened JsValues

  /** The slice's state. */
  datatype OrderState<O> = OrderState(orders: seq<O>, loading: bool, error: Option<string>)

  const FallbackMessage := "Error"

  /** How `GET /orders` ends. */
  datatype FetchOutcome<O> = Loaded(data: seq<O>) | Failed(serverMessage: Option<string>)

  /** The actions the thunk dispatches. */
  datatype FetchAction<O> = Pending | Fulfilled(payload: seq<O>) | Rejected(message: string)

  /** `initialState`: no orders, not loading, no error. */
  function InitialState<O>(): (st: OrderState<O>)
    ensures st.orders == [] && !st.loading && st.error.None?
  {
    OrderState([], false, None)
  }

  /** The thunk's reject value: the server's message when it is a non-empty
      string, otherwise "Error"; never empty. */
  function RejectValue(serverMessage: Option<string>): (m: string)
    ensures m != ""
    ensures serverMessage.Some? && serverMessage.value != "" ==> m == serverMessage.value
    ensures serverMessage.None? || serverMessage.value == "" ==> m == FallbackMessage
  {
    OrElse(serverMessage, FallbackMessage)
  }

  /** The action the thunk settles with. */
  function Settled<O>(o: FetchOutcome<O>): (a: FetchAction<O>)
    ensures !a.Pending?
    ensures o.Loaded? ==> a == Fulfilled(o.data)
    ensures o.Failed? ==> a == Rejected(RejectValue(o.serverMessage))
  {
    match o
    case Loaded(data) => Fulfilled(data)
    case Failed(m) => Rejected(RejectValue(m))
  }

  /** The reducer's three cases. */
  function Reduce<O>(st: OrderState<O>, a: FetchAction<O>): (r: OrderState<O>)
    ensures r.loading <==> a.Pending?
    ensures a.Fulfilled? ==> r.orders == a.payload
    ensures !a.Fulfilled? ==> r.orders == st.orders
    ensures a.Rejected? ==> r.error == Some(a.message)
    ensures !a.Rejected? ==> r.error == st.error
  {
    match a
    case Pending => st.(loading := true)
    case Fulfilled(p) => st.(orders := p, loading := false)
    case Rejected(m) => st.(error := Some(m), loading := false)
  }

  /** The actions applied in order. */
  function ReduceAll<O>(st: OrderState<O>, acts: seq<FetchAction<O>>): (r: OrderState<O>)
    ensures r.orders == st.orders || exists i | 0 <= i < |acts| && acts[i].Fulfilled? :: r.orders == acts[i].payload
    ensures r.error == st.error || exists i | 0 <= i < |acts| && acts[i].Rejected? :: r.error == Some(acts[i].message)
    decreases |acts|
  {
    if acts == [] then st
    else
      var r := ReduceAll(Reduce(st, acts[0]), acts[1..]);
      assert forall i | 0 <= i < |acts[1..]| :: acts[1..][i] == acts[i + 1];
      r
  }

  /** Once a run of actions ends with `fulfilled`, the orders shown are that
      action's payload, whatever came before. */
  lemma {:induction false} LastFulfilledWins<O>(st: OrderState<O>, acts: seq<FetchAction<O>>, data: seq<O>)
    ensures ReduceAll(st, acts + [Fulfilled(data)]).orders == data
    ensures !ReduceAll(st, acts + [Fulfilled(data)]).loading
    decreases |acts|
  {
    if acts == [] {
      assert acts + [Fulfilled(data)] == [Fulfilled(data)];
    } else {
      assert (acts + [Fulfilled(data)])[1..] == acts[1..] + [Fulfilled(data)];
      LastFulfilledWins(Reduce(st, acts[0]), acts[1..], data);
    }
  }

  /** Without a `fulfilled` action the orders shown stay as they were: a
      rejected or still-pending fetch does not empty the list. */
  lemma {:induction false} OrdersKeptWithoutFulfilled<O>(st: OrderState<O>, acts: seq<FetchAction<O>>)
    requires forall i | 0 <= i < |acts| :: !acts[i].Fulfilled?
    ensures ReduceAll(st, acts).orders == st.orders
    decreases |acts|
  {
    if acts != [] {
      assert !acts[0].Fulfilled?;
      OrdersKeptWithoutFulfilled(Reduce(st, acts[0]), acts[1..]);
    }
  }

  /** The slice's state, updated in place by the reducer's cases. */
  class OrderStore<O> {
    var orders: seq<O>
    var loading: bool
    var error: Option<string>

    function State(): OrderState<O>
      reads this
    {
      OrderState(orders, loading, error)
    }

    constructor ()
      ensures State() == InitialState()
    {
      orders := [];
      loading := false;
      error := None;
    }

    /** `fetchOrders.pending`: only `loading` changes, to true. */
    method OnPending()
      modifies this`loading
      ensures loading
      ensures State() == Reduce(old(State()), Pending)
    {
      loading := true;
    }

    /** `fetchOrders.fulfilled`: the orders are replaced and `loading`
        cleared; the error stays. */
    method OnFulfilled(payload: seq<O>)
      modifies this`orders, this`loading
      ensures orders == payload && !loading
      ensures State() == Reduce(old(State()), Fulfilled(payload))
    {
      orders := payload;
      loading := false;
    }

    /** `fetchOrders.rejected`: the error is set and `loading` cleared; the
        orders stay. */
    method OnRejected(payload: string)
      modifies this`error, this`loading
      ensures error == Some(payload) && !loading
      ensures State() == Reduce(old(State()), Rejected(payload))
    {
      error := Some(payload);
      loading := false;
    }

    /** One whole `fetchOrders` dispatch: pending, then the settled case. */
    method FetchOrders(outcome: FetchOutcome<O>)
      modifies this
      ensures State() == Reduce(Reduce(old(State()), Pending), Settled(outcome))
    {
      OnPending();
      match outcome
      case Loaded(data) => OnFulfilled(data);
      case Failed(m) => OnRejected(RejectValue(m));
    }
  }
}
