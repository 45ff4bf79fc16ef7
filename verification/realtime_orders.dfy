/** The admin order list kept live by the orders change feed
    (src/hooks/use-realtime-orders.ts): an initial list, replaced once by a
    fresh fetch, then edited by INSERT, UPDATE and DELETE events. */
module RealtimeOrders {
  import opened Types

  /** A change-feed event on the orders table. An INSERT carries the result
      of fetching the new order with its items: `None` when the fetch threw,
      answered with a non-OK status, or returned an error body. */
  datatype OrderEvent =
    | OrderInserted(fetched: Option<Order>)
    | OrderUpdated(row: OrderRow)
    | OrderDeleted(id: OrderId)

  /** The outcome of the initial fetch: the parsed body (`None` for a null
      body) or a failure (a non-OK status or a thrown error). */
  datatype FetchResult = FetchOk(data: Option<seq<Order>>) | FetchFailed

  /** `prev.map(order => order.id === row.id ? { ...order, ...row } : order)`:
      the new row replaces the matching orders' columns, their items stay. */
  function ApplyUpdate(orders: seq<Order>, row: OrderRow): (r: seq<Order>)
    ensures |r| == |orders|
    ensures forall i :: 0 <= i < |r| ==> r[i].items == orders[i].items
    ensures forall i :: 0 <= i < |r| ==> r[i].row == (if orders[i].row.id == row.id then row else orders[i].row)
  {
    if |orders| == 0 then []
    else [if orders[0].row.id == row.id then orders[0].(row := row) else orders[0]] + ApplyUpdate(orders[1..], row)
  }

  /** `prev.filter(order => order.id !== id)`. */
  function DropOrder(orders: seq<Order>, id: OrderId): (r: seq<Order>)
    ensures |r| <= |orders|
    ensures forall o :: o in r <==> o in orders && o.row.id != id
  {
    if |orders| == 0 then []
    else (if orders[0].row.id == id then [] else [orders[0]]) + DropOrder(orders[1..], id)
  }

  /** The list after one event. */
  function ApplyEvent(orders: seq<Order>, ev: OrderEvent): (r: seq<Order>)
    ensures ev.OrderInserted? && ev.fetched.Some? ==> r == [ev.fetched.value] + orders
    ensures ev.OrderInserted? && ev.fetched.None? ==> r == orders
  {
    match ev
    case OrderInserted(fetched) => if fetched.Some? then [fetched.value] + orders else orders
    case OrderUpdated(row) => ApplyUpdate(orders, row)
    case OrderDeleted(id) => DropOrder(orders, id)
  }

  /** The list once the initial fetch settles: the fetched list (empty for a
      null body); on failure the initial list if it is non-empty, otherwise
      the current list. */
  function Settled(current: seq<Order>, initial: seq<Order>, result: FetchResult): (r: seq<Order>)
    ensures result.FetchOk? && result.data.Some? ==> r == result.data.value
    ensures result.FetchOk? && result.data.None? ==> r == []
    ensures result.FetchFailed? ==> r == if |initial| > 0 then initial else current
  {
    match result
    case FetchOk(data) => if data.Some? then data.value else []
    case FetchFailed => if |initial| > 0 then initial else current
  }

  /** Applying the same update twice is the same as applying it once. */
  lemma {:induction false} UpdateIdempotent(orders: seq<Order>, row: OrderRow)
    ensures ApplyUpdate(ApplyUpdate(orders, row), row) == ApplyUpdate(orders, row)
  {
    if |orders| > 0 {
      UpdateIdempotent(orders[1..], row);
    }
  }

  /** An update for an id no order has leaves the list unchanged. */
  lemma {:induction false} UpdateAbsentIsNoOp(orders: seq<Order>, row: OrderRow)
    requires forall i :: 0 <= i < |orders| ==> orders[i].row.id != row.id
    ensures ApplyUpdate(orders, row) == orders
  {
    if |orders| > 0 {
      UpdateAbsentIsNoOp(orders[1..], row);
    }
  }

  /** Deletion distributes over concatenation, so the kept orders stay in order. */
  lemma {:induction false} DropConcat(a: seq<Order>, b: seq<Order>, id: OrderId)
    ensures DropOrder(a + b, id) == DropOrder(a, id) + DropOrder(b, id)
  {
    if |a| == 0 {
      assert a + b == b;
    } else {
      assert (a + b)[1..] == a[1..] + b;
      DropConcat(a[1..], b, id);
    }
  }

  /** Deleting an id no order has leaves the list unchanged. */
  lemma {:induction false} DropAbsentIsNoOp(orders: seq<Order>, id: OrderId)
    requires forall i :: 0 <= i < |orders| ==> orders[i].row.id != id
    ensures DropOrder(orders, id) == orders
  {
    if |orders| > 0 {
      DropAbsentIsNoOp(orders[1..], id);
    }
  }

  /** Deleting twice is the same as deleting once. */
  lemma {:induction false} DropIdempotent(orders: seq<Order>, id: OrderId)
    ensures DropOrder(DropOrder(orders, id), id) == DropOrder(orders, id)
  {
    var r := DropOrder(orders, id);
    forall i | 0 <= i < |r| ensures r[i].row.id != id {
      assert r[i] in r;
    }
    DropAbsentIsNoOp(r, id);
  }

  /** A delete following the insert of the same order undoes it. */
  lemma InsertThenDelete(orders: seq<Order>, o: Order)
    ensures ApplyEvent(ApplyEvent(orders, OrderInserted(Some(o))), OrderDeleted(o.row.id))
         == DropOrder(orders, o.row.id)
  {
    DropConcat([o], orders, o.row.id);
    assert DropOrder([o], o.row.id) == [] by {
      assert [o][1..] == [];
    }
  }

  /** An update following an insert of the same order rewrites the new head
      and leaves its items as fetched. */
  lemma InsertThenUpdate(orders: seq<Order>, o: Order, row: OrderRow)
    requires row.id == o.row.id
    ensures var r := ApplyEvent(ApplyEvent(orders, OrderInserted(Some(o))), OrderUpdated(row));
      r[0] == Order(row, o.items) && r[1..] == ApplyUpdate(orders, row)
  {
    assert ([o] + orders)[1..] == orders;
  }

  /** The hook's state. */
  class OrdersFeed {
    var orders: seq<Order>
    var loading: bool
    const initialOrders: seq<Order>

    /** The list starts as the server-rendered orders; it is loading exactly
        when there were none. */
    constructor (initial: seq<Order>)
      ensures orders == initial && initialOrders == initial
      ensures loading == (|initial| == 0)
    {
      orders := initial;
      loading := |initial| == 0;
      initialOrders := initial;
    }

    /** The initial fetch settles (`finally` clears `loading`). */
    method SettleInitialFetch(result: FetchResult)
      modifies this
      ensures orders == Settled(old(orders), initialOrders, result)
      ensures !loading
    {
      if result.FetchOk? {
        orders := if result.data.Some? then result.data.value else [];
      } else if |initialOrders| > 0 {
        orders := initialOrders;
      }
      loading := false;
    }

    /** One change-feed event. */
    method Receive(ev: OrderEvent)
      modifies this
      ensures orders == ApplyEvent(old(orders), ev)
      ensures loading == old(loading)
    {
      match ev
      case OrderInserted(fetched) =>
        if fetched.Some? {
          orders := [fetched.value] + orders;
        }
      case OrderUpdated(row) =>
        orders := ApplyUpdate(orders, row);
      case OrderDeleted(id) =>
        orders := DropOrder(orders, id);
    }
  }
}
