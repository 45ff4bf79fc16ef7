/** The payment-notification webhook (src/app/api/midtrans/notification/route.ts):
    the gateway's transaction and fraud statuses decide an order status; a
    non-pending status is written to the order, and a paid one also takes each
    order line's quantity off its product's stock. */
module Notification {
  import opened Types
  import opened Backend
  import Checkout

  /** The fields of a notification whose signature the gateway verified. */
  datatype PaymentNotification = PaymentNotification(
    orderId: OrderId,
    transactionStatus: string,
    fraudStatus: Option<string>,
    transactionId: Option<string>)

  /** The decision table from (transaction status, fraud status) to an order status. */
  function MapStatus(transactionStatus: string, fraudStatus: Option<string>): (r: OrderStatus)
    ensures r != Shipped
    ensures r == Paid <==>
      transactionStatus == "settlement" || (transactionStatus == "capture" && fraudStatus == Some("accept"))
    ensures r == Cancelled <==>
      transactionStatus == "cancel" || transactionStatus == "deny" || transactionStatus == "expire"
  {
    if transactionStatus == "capture" then
      (if fraudStatus == Some("challenge") then Pending
       else if fraudStatus == Some("accept") then Paid
       else Pending)
    else if transactionStatus == "settlement" then Paid
    else if transactionStatus == "cancel" || transactionStatus == "deny" || transactionStatus == "expire" then Cancelled
    else Pending
  }

  /** A transaction id is written only when it is present and non-empty (truthy). */
  predicate HasTransactionId(n: PaymentNotification)
  {
    n.transactionId.Some? && n.transactionId.value != ""
  }

  /** The order row after the status update. */
  function UpdatedRow(row: OrderRow, n: PaymentNotification): (r: OrderRow)
    ensures r.status == MapStatus(n.transactionStatus, n.fraudStatus)
    ensures r.paymentId == (if HasTransactionId(n) then n.transactionId else row.paymentId)
    ensures r.(status := row.status, paymentId := row.paymentId) == row
  {
    row.(status := MapStatus(n.transactionStatus, n.fraudStatus),
         paymentId := if HasTransactionId(n) then n.transactionId else row.paymentId)
  }

  /** The products table after the paid loop calls `decrement_stock` for each
      line; `applied(i)` says whether the i-th call took effect (its errors
      are ignored). A line whose product was deleted names no product. */
  function PaidDecrements(products: map<ProductId, Product>, lines: seq<OrderLine>, applied: nat -> bool): (r: map<ProductId, Product>)
    ensures r.Keys == products.Keys
  {
    if |lines| == 0 then products
    else
      var n := |lines| - 1;
      var before := PaidDecrements(products, lines[..n], applied);
      if applied(n) && lines[n].productId.Some? then DecrementStock(before, lines[n].productId.value, lines[n].quantity)
      else before
  }

  /** The HTTP status of the response. */
  function ResponseStatus(orders: map<OrderId, OrderRow>, n: Option<PaymentNotification>, updateFails: bool): (code: int)
    ensures code == 200 || code == 500
    ensures code == 200 <==>
      n.Some? && (MapStatus(n.value.transactionStatus, n.value.fraudStatus) == Pending
                  || (n.value.orderId in orders && !updateFails))
  {
    if n.None? then 500
    else if MapStatus(n.value.transactionStatus, n.value.fraudStatus) == Pending then 200
    else if n.value.orderId !in orders || updateFails then 500
    else 200
  }

  /** Whether the handler writes the order (and then possibly the stock). */
  predicate Writes(orders: map<OrderId, OrderRow>, n: Option<PaymentNotification>, updateFails: bool)
  {
    n.Some? && MapStatus(n.value.transactionStatus, n.value.fraudStatus) != Pending
    && n.value.orderId in orders && !updateFails
  }

  /** The orders table after the handler. */
  function OrdersAfter(orders: map<OrderId, OrderRow>, n: Option<PaymentNotification>, updateFails: bool): (r: map<OrderId, OrderRow>)
    ensures !Writes(orders, n, updateFails) ==> r == orders
    ensures Writes(orders, n, updateFails) ==>
      r == orders[n.value.orderId := UpdatedRow(orders[n.value.orderId], n.value)]
  {
    if Writes(orders, n, updateFails) then orders[n.value.orderId := UpdatedRow(orders[n.value.orderId], n.value)]
    else orders
  }

  /** The lines of an order as the items query returns them (none when the
      order has no lines). */
  function LinesOf(items: map<OrderId, seq<OrderLine>>, id: OrderId): seq<OrderLine>
  {
    if id in items then items[id] else []
  }

  /** The products table after the handler: only a written paid status, with
      the items query answered, decrements stock. */
  function StockAfter(products: map<ProductId, Product>, orders: map<OrderId, OrderRow>,
                      items: map<OrderId, seq<OrderLine>>, n: Option<PaymentNotification>,
                      updateFails: bool, itemsFetchFails: bool, applied: nat -> bool): (r: map<ProductId, Product>)
    ensures r.Keys == products.Keys
    ensures !Writes(orders, n, updateFails) || itemsFetchFails ==> r == products
    ensures n.Some? && MapStatus(n.value.transactionStatus, n.value.fraudStatus) != Paid ==> r == products
    ensures Writes(orders, n, updateFails) && MapStatus(n.value.transactionStatus, n.value.fraudStatus) == Paid && !itemsFetchFails ==>
      r == PaidDecrements(products, LinesOf(items, n.value.orderId), applied)
  {
    if Writes(orders, n, updateFails) && MapStatus(n.value.transactionStatus, n.value.fraudStatus) == Paid && !itemsFetchFails
    then PaidDecrements(products, LinesOf(items, n.value.orderId), applied)
    else products
  }

  /** Only a paid status moves stock: a cancelled or pending outcome, or a
      failed order update, leaves every product as it was. */
  lemma OnlyPaidTouchesStock(products: map<ProductId, Product>, orders: map<OrderId, OrderRow>,
                             items: map<OrderId, seq<OrderLine>>, n: Option<PaymentNotification>,
                             updateFails: bool, itemsFetchFails: bool, applied: nat -> bool)
    requires n.None? || MapStatus(n.value.transactionStatus, n.value.fraudStatus) != Paid
             || ResponseStatus(orders, n, updateFails) == 500
    ensures StockAfter(products, orders, items, n, updateFails, itemsFetchFails, applied) == products
  {
  }

  /** A pending outcome answers 200 and writes nothing. */
  lemma PendingWritesNothing(orders: map<OrderId, OrderRow>, n: PaymentNotification, updateFails: bool)
    requires MapStatus(n.transactionStatus, n.fraudStatus) == Pending
    ensures ResponseStatus(orders, Some(n), updateFails) == 200
    ensures OrdersAfter(orders, Some(n), updateFails) == orders
  {
  }

  ghost predicate Mentions(lines: seq<OrderLine>, pid: ProductId)
  {
    exists i :: 0 <= i < |lines| && lines[i].productId == Some(pid)
  }

  /** The paid loop touches only the products its lines name. */
  lemma {:induction false} PaidFrame(products: map<ProductId, Product>, lines: seq<OrderLine>, applied: nat -> bool, pid: ProductId)
    requires !Mentions(lines, pid)
    ensures var r := PaidDecrements(products, lines, applied);
      (pid in r <==> pid in products) && (pid in products ==> r[pid] == products[pid])
  {
    if |lines| > 0 {
      var n := |lines| - 1;
      PaidFrame(products, lines[..n], applied, pid);
      assert lines[n].productId != Some(pid);
    }
  }

  /** With one line per product and every call applied, each line's product
      loses exactly that line's quantity. */
  lemma {:induction false} PaidLine(products: map<ProductId, Product>, lines: seq<OrderLine>, applied: nat -> bool, i: nat)
    requires Checkout.DistinctProducts(lines) && i < |lines| && lines[i].productId.Some?
    requires lines[i].productId.value in products
    requires forall j :: 0 <= j < |lines| ==> applied(j)
    ensures var pid := lines[i].productId.value;
      var r := PaidDecrements(products, lines, applied);
      pid in r && r[pid] == products[pid].(stock := products[pid].stock - lines[i].quantity)
  {
    var n := |lines| - 1;
    var pre := lines[..n];
    var pid := lines[i].productId.value;
    if i == n {
      assert !Mentions(pre, pid);
      PaidFrame(products, pre, applied, pid);
    } else {
      assert Checkout.DistinctProducts(pre);
      assert pre[i] == lines[i];
      PaidLine(products, pre, applied, i);
      assert lines[n].productId != Some(pid);
    }
  }

  /** Checkout already reserves the stock of an order's lines, and the paid
      notification for that order decrements it again: with every write
      applied, a product ordered in quantity q ends 2q below its stock before
      checkout. */
  lemma PaidOrderStockDecrementedTwice(products: map<ProductId, Product>, lines: seq<OrderLine>,
                                       fetched: map<ProductId, Product>, applied: nat -> bool, i: nat)
    requires Checkout.DistinctProducts(lines) && i < |lines| && lines[i].productId.Some?
    requires lines[i].productId.value in products && lines[i].productId.value in fetched
    requires forall p :: p in fetched ==> p in products && fetched[p].stock == products[p].stock
    requires forall j :: 0 <= j < |lines| ==> applied(j)
    ensures var pid := lines[i].productId.value;
      var reserved := Checkout.Reserved(products, lines, fetched, _ => Checkout.RpcApplied);
      var r := PaidDecrements(reserved, lines, applied);
      pid in r && r[pid].stock == products[pid].stock - 2 * lines[i].quantity
  {
    var w: nat -> Checkout.StockWrite := _ => Checkout.RpcApplied;
    Checkout.ReservedLine(products, lines, fetched, w, i);
    var reserved := Checkout.Reserved(products, lines, fetched, w);
    PaidLine(reserved, lines, applied, i);
  }

  /** The paid loop. */
  method DecrementPaidStock(db: Database, lines: seq<OrderLine>, applied: nat -> bool)
    modifies db`products
    ensures db.products == PaidDecrements(old(db.products), lines, applied)
  {
    var i := 0;
    while i < |lines|
      invariant 0 <= i <= |lines|
      invariant db.products == PaidDecrements(old(db.products), lines[..i], applied)
    {
      var item := lines[i];
      assert lines[..i + 1][..i] == lines[..i];
      if applied(i) && item.productId.Some? {
        db.products := DecrementStock(db.products, item.productId.value, item.quantity);
      }
      i := i + 1;
    }
    assert lines[..i] == lines;
  }

  /** POST: `n` is `None` when reading or verifying the notification throws;
      `updateFails`, `itemsFetchFails` and `applied` are the database's answers. */
  method HandleNotification(db: Database, n: Option<PaymentNotification>, updateFails: bool,
                            itemsFetchFails: bool, applied: nat -> bool) returns (code: int)
    modifies db`orders, db`products
    ensures code == ResponseStatus(old(db.orders), n, updateFails)
    ensures db.orders == OrdersAfter(old(db.orders), n, updateFails)
    ensures db.products == StockAfter(old(db.products), old(db.orders), db.orderItems, n, updateFails, itemsFetchFails, applied)
  {
    if n.None? {
      return 500;
    }
    var note := n.value;
    var orderStatus := MapStatus(note.transactionStatus, note.fraudStatus);
    if orderStatus != Pending {
      // `.single()` reports an error when the update matched no order
      if note.orderId !in db.orders || updateFails {
        return 500;
      }
      db.orders := db.orders[note.orderId := UpdatedRow(db.orders[note.orderId], note)];
      if orderStatus == Paid && !itemsFetchFails {
        DecrementPaidStock(db, LinesOf(db.orderItems, note.orderId), applied);
      }
    }
    code := 200;
  }
}
