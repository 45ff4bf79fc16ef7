/** Checkout order assembly (src/app/checkout/actions.ts, `createOrder`):
    validation in a fixed order, a total computed from server prices only,
    the order and its lines persisted, stock reserved, then a payment token. */
module Checkout {
  import opened Types
  import opened Backend

  /** The shipping fields as `formData.get` returns them (`None` when absent). */
  datatype ShippingForm = ShippingForm(
    name: Option<string>, email: Option<string>, phone: Option<string>,
    address: Option<string>, city: Option<string>, postalCode: Option<string>)

  /** A line of the request: only the id and the quantity reach the server. */
  datatype CartItemInput = CartItemInput(id: ProductId, quantity: int)

  datatype CheckoutError =
    | Unauthorized
    | InvalidShipping
    | EmptyCart
    | ProductsFetchFailed
    | ProductNotFound(id: ProductId)
    | InsufficientStock(name: string)
    | OrderInsertFailed
    | ItemsInsertFailed
    | PaymentGatewayError

  /** The message of the error `createOrder` throws: it names the kind of
      error, and the product id or name where there is one. Database error texts
      appended after the colon are not modelled. */
  function Message(e: CheckoutError): (r: string)
    ensures KindOfMessage(r) == Kind(e)
    ensures e.ProductNotFound? ==> |r| >= 19 && r[19..] == e.id
    ensures e.InsufficientStock? ==> |r| >= 23 && r[23..] == e.name
  {
    match e
    case Unauthorized => "Unauthorized"
    case InvalidShipping => "Invalid shipping details"
    case EmptyCart => "Cart is empty"
    case ProductsFetchFailed => "Failed to fetch products"
    case ProductNotFound(id) => "Product not found: " + id
    case InsufficientStock(name) => "Insufficient stock for " + name
    case OrderInsertFailed => "Failed to create order: "
    case ItemsInsertFailed => "Failed to create order items: "
    case PaymentGatewayError => "Payment gateway error"
  }

  /** The kind of an error, numbered in the order createOrder can raise them. */
  function Kind(e: CheckoutError): nat
  {
    match e
    case Unauthorized => 0
    case InvalidShipping => 1
    case EmptyCart => 2
    case ProductsFetchFailed => 3
    case ProductNotFound(_) => 4
    case InsufficientStock(_) => 5
    case OrderInsertFailed => 6
    case ItemsInsertFailed => 7
    case PaymentGatewayError => 8
  }

  /** The kind of error a message reports, read off the characters in which
      the messages differ. */
  function KindOfMessage(m: string): int
  {
    if |m| < 3 then -1
    else if m[0] == 'U' then 0
    else if m[0] == 'C' then 2
    else if m[0] == 'I' then (if m[2] == 'v' then 1 else 5)
    else if m[0] == 'P' then (if m[1] == 'a' then 8 else 4)
    else if |m| > 22 && m[10] == 'f' then 3
    else if |m| > 22 && m[22] == ':' then 6
    else 7
  }

  /** A message determines its error: the kind, and the product id or name it carries. */
  lemma MessagesIdentifyErrors(e1: CheckoutError, e2: CheckoutError)
    requires Message(e1) == Message(e2)
    ensures e1 == e2
  {
  }

  /** zod's `z.string().min(n)`: a string of at least `n` characters. */
  predicate MinLength(f: Option<string>, n: nat)
  {
    f.Some? && |f.value| >= n
  }

  /** The shipping schema. `isEmail` stands for zod's email-format check. */
  function ParseShipping(form: ShippingForm, isEmail: string -> bool): (r: Option<ShippingDetails>)
    ensures r.Some? <==>
      && MinLength(form.name, 1) && form.email.Some? && isEmail(form.email.value)
      && MinLength(form.phone, 10) && MinLength(form.address, 5)
      && MinLength(form.city, 1) && MinLength(form.postalCode, 1)
    ensures r.Some? ==> r.value == ShippingDetails(form.name.value, form.email.value, form.phone.value,
                                                   form.address.value, form.city.value, form.postalCode.value)
  {
    if !MinLength(form.name, 1) then None
    else if !(form.email.Some? && isEmail(form.email.value)) then None
    else if !MinLength(form.phone, 10) then None
    else if !MinLength(form.address, 5) then None
    else if !MinLength(form.city, 1) then None
    else if !MinLength(form.postalCode, 1) then None
    else Some(ShippingDetails(form.name.value, form.email.value, form.phone.value,
                              form.address.value, form.city.value, form.postalCode.value))
  }

  ghost predicate Requested(cart: seq<CartItemInput>, id: ProductId)
  {
    exists i :: 0 <= i < |cart| && cart[i].id == id
  }

  /** `select * from products where id in (the cart's ids)`. */
  function Fetch(products: map<ProductId, Product>, cart: seq<CartItemInput>): (r: map<ProductId, Product>)
    ensures forall id :: id in r <==> id in products && Requested(cart, id)
    ensures forall id :: id in r ==> r[id] == products[id]
  {
    map id | id in products && (exists i | 0 <= i < |cart| :: cart[i].id == id) :: products[id]
  }

  /** The loop's checks for one line: the product must have been fetched and
      its stock must cover the quantity (equal stock passes). */
  function LineError(item: CartItemInput, fetched: map<ProductId, Product>): (r: Option<CheckoutError>)
    ensures r.None? <==> item.id in fetched && fetched[item.id].stock >= item.quantity
    ensures r == Some(ProductNotFound(item.id)) <==> item.id !in fetched
    ensures r.Some? && item.id in fetched ==> r == Some(InsufficientStock(fetched[item.id].name))
  {
    if item.id !in fetched then Some(ProductNotFound(item.id))
    else if fetched[item.id].stock < item.quantity then Some(InsufficientStock(fetched[item.id].name))
    else None
  }

  /** The order line built for a cart line: the server's price as unit price. */
  function LineFor(item: CartItemInput, fetched: map<ProductId, Product>): OrderLine
    requires item.id in fetched
  {
    OrderLine(Some(item.id), item.quantity, fetched[item.id].price)
  }

  /** Sum of unit price times quantity. */
  function LinesTotal(lines: seq<OrderLine>): int
  {
    if |lines| == 0 then 0
    else LinesTotal(lines[..|lines| - 1]) + lines[|lines| - 1].unitPrice * lines[|lines| - 1].quantity
  }

  datatype Draft = Draft(lines: seq<OrderLine>, total: int)

  /** The validation loop of createOrder, line by line in cart order: the first
      failing line decides the error; otherwise one order line per cart line,
      priced from the fetched products, and their total. */
  function Assemble(cart: seq<CartItemInput>, fetched: map<ProductId, Product>): (r: Result<Draft, CheckoutError>)
    ensures r.Ok? <==> forall i :: 0 <= i < |cart| ==> LineError(cart[i], fetched).None?
    ensures r.Ok? ==> |r.value.lines| == |cart| && r.value.total == LinesTotal(r.value.lines)
    ensures r.Ok? ==> forall i :: 0 <= i < |cart| ==>
      cart[i].id in fetched && r.value.lines[i] == LineFor(cart[i], fetched)
  {
    if |cart| == 0 then Ok(Draft([], 0))
    else
      var n := |cart| - 1;
      match Assemble(cart[..n], fetched)
      case Err(e) => Err(e)
      case Ok(d) =>
        match LineError(cart[n], fetched)
        case Some(e) => Err(e)
        case None =>
          var line := LineFor(cart[n], fetched);
          assert (d.lines + [line])[..n] == d.lines;
          assert forall i :: 0 <= i < n ==> cart[..n][i] == cart[i];
          Ok(Draft(d.lines + [line], d.total + line.unitPrice * line.quantity))
  }

  /** The error raised is that of the first failing line. */
  lemma {:induction false} AssembleFailsAtFirstBadLine(cart: seq<CartItemInput>, fetched: map<ProductId, Product>, k: nat)
    requires k < |cart| && LineError(cart[k], fetched).Some?
    requires forall j :: 0 <= j < k ==> LineError(cart[j], fetched).None?
    ensures Assemble(cart, fetched) == Err(LineError(cart[k], fetched).value)
  {
    var n := |cart| - 1;
    if k == n {
      assert forall j :: 0 <= j < n ==> cart[..n][j] == cart[j];
    } else {
      AssembleFailsAtFirstBadLine(cart[..n], fetched, k);
    }
  }

  /** Once a prefix of the cart fails, the whole cart fails with the same error. */
  lemma {:induction false} AssemblePrefixError(cart: seq<CartItemInput>, fetched: map<ProductId, Product>, k: nat)
    requires k <= |cart| && Assemble(cart[..k], fetched).Err?
    ensures Assemble(cart, fetched) == Assemble(cart[..k], fetched)
  {
    if k < |cart| {
      var n := |cart| - 1;
      assert cart[..n][..k] == cart[..k];
      AssemblePrefixError(cart[..n], fetched, k);
    } else {
      assert cart[..k] == cart;
    }
  }

  /** Extending an accepted prefix by an accepted line appends its order line. */
  lemma AssembleStep(cart: seq<CartItemInput>, fetched: map<ProductId, Product>, i: nat, d: Draft)
    requires i < |cart| && Assemble(cart[..i], fetched) == Ok(d) && LineError(cart[i], fetched).None?
    ensures Assemble(cart[..i + 1], fetched)
         == Ok(Draft(d.lines + [LineFor(cart[i], fetched)], d.total + fetched[cart[i].id].price * cart[i].quantity))
  {
    assert cart[..i + 1][..i] == cart[..i];
    assert cart[..i + 1][i] == cart[i];
  }

  /** A failing line after an accepted prefix fails the prefix through it. */
  lemma AssembleStepFails(cart: seq<CartItemInput>, fetched: map<ProductId, Product>, i: nat)
    requires i < |cart| && Assemble(cart[..i], fetched).Ok? && LineError(cart[i], fetched).Some?
    ensures Assemble(cart, fetched) == Err(LineError(cart[i], fetched).value)
  {
    assert cart[..i + 1][..i] == cart[..i];
    assert cart[..i + 1][i] == cart[i];
    AssemblePrefixError(cart, fetched, i + 1);
  }

  /** The loop of createOrder, accumulating the total and the order lines. */
  method CollectOrderLines(cart: seq<CartItemInput>, fetched: map<ProductId, Product>) returns (r: Result<Draft, CheckoutError>)
    ensures r == Assemble(cart, fetched)
  {
    var totalAmount := 0;
    var orderItemsData: seq<OrderLine> := [];
    var i := 0;
    while i < |cart|
      invariant 0 <= i <= |cart|
      invariant Assemble(cart[..i], fetched) == Ok(Draft(orderItemsData, totalAmount))
    {
      var item := cart[i];
      if item.id !in fetched {
        AssembleStepFails(cart, fetched, i);
        return Err(ProductNotFound(item.id));
      }
      var product := fetched[item.id];
      if product.stock < item.quantity {
        AssembleStepFails(cart, fetched, i);
        return Err(InsufficientStock(product.name));
      }
      AssembleStep(cart, fetched, i, Draft(orderItemsData, totalAmount));
      totalAmount := totalAmount + product.price * item.quantity;
      // `find` matched on the id, so the product's id is the line's id
      orderItemsData := orderItemsData + [OrderLine(Some(item.id), item.quantity, product.price)];
      i := i + 1;
    }
    assert cart[..i] == cart;
    r := Ok(Draft(orderItemsData, totalAmount));
  }

  datatype Validated = Validated(user: UserId, shipping: ShippingDetails, fetched: map<ProductId, Product>, draft: Draft)

  /** Everything createOrder checks before it writes: session, shipping
      fields, empty cart, the product fetch, then the line checks. */
  function Validate(user: Option<UserId>, cart: seq<CartItemInput>, form: ShippingForm, isEmail: string -> bool,
                    fetchFails: bool, products: map<ProductId, Product>): (r: Result<Validated, CheckoutError>)
    ensures r.Ok? ==> user.Some? && r.value.user == user.value
    ensures r.Ok? ==> |cart| > 0 && ParseShipping(form, isEmail) == Some(r.value.shipping)
    ensures r.Ok? ==> !fetchFails && r.value.fetched == Fetch(products, cart)
    ensures r.Ok? ==> Assemble(cart, r.value.fetched) == Ok(r.value.draft)
    ensures user.Some? && ParseShipping(form, isEmail).Some? && |cart| > 0 ==>
      && (fetchFails ==> r == Err(ProductsFetchFailed))
      && (!fetchFails ==> (r.Ok? <==> Assemble(cart, Fetch(products, cart)).Ok?))
      && (!fetchFails && r.Err? ==> Assemble(cart, Fetch(products, cart)) == Err(r.error))
  {
    if user.None? then Err(Unauthorized)
    else match ParseShipping(form, isEmail)
      case None => Err(InvalidShipping)
      case Some(shipping) =>
        if |cart| == 0 then Err(EmptyCart)
        else if fetchFails then Err(ProductsFetchFailed)
        else
          var fetched := Fetch(products, cart);
          match Assemble(cart, fetched)
          case Err(e) => Err(e)
          case Ok(d) => Ok(Validated(user.value, shipping, fetched, d))
  }

  /** Session, shipping and empty-cart failures come first, in that order, and
      are decided before any product is fetched: the catalog cannot affect them. */
  lemma EarlyFailuresPrecedeFetch(user: Option<UserId>, cart: seq<CartItemInput>, form: ShippingForm,
                                  isEmail: string -> bool, f1: bool, p1: map<ProductId, Product>,
                                  f2: bool, p2: map<ProductId, Product>)
    ensures user.None? ==> Validate(user, cart, form, isEmail, f1, p1) == Err(Unauthorized)
    ensures user.Some? && ParseShipping(form, isEmail).None? ==>
      Validate(user, cart, form, isEmail, f1, p1) == Err(InvalidShipping)
    ensures user.Some? && ParseShipping(form, isEmail).Some? && |cart| == 0 ==>
      Validate(user, cart, form, isEmail, f1, p1) == Err(EmptyCart)
    ensures user.None? || ParseShipping(form, isEmail).None? || |cart| == 0 ==>
      Validate(user, cart, form, isEmail, f1, p1) == Validate(user, cart, form, isEmail, f2, p2)
  {
  }

  /** On success every line was found with enough stock, there is one order
      line per cart line in cart order carrying the server price, and the total
      is the sum of server price times quantity. */
  lemma ValidatedOrderUsesServerPrices(user: Option<UserId>, cart: seq<CartItemInput>, form: ShippingForm,
                                       isEmail: string -> bool, products: map<ProductId, Product>)
    requires Validate(user, cart, form, isEmail, false, products).Ok?
    ensures var v := Validate(user, cart, form, isEmail, false, products).value;
      && |v.draft.lines| == |cart|
      && v.draft.total == LinesTotal(v.draft.lines)
      && forall i :: 0 <= i < |cart| ==>
           && cart[i].id in products
           && products[cart[i].id].stock >= cart[i].quantity
           && v.draft.lines[i] == OrderLine(Some(cart[i].id), cart[i].quantity, products[cart[i].id].price)
  {
    var v := Validate(user, cart, form, isEmail, false, products).value;
    forall i | 0 <= i < |cart|
      ensures cart[i].id in products && products[cart[i].id].stock >= cart[i].quantity
    {
      assert LineError(cart[i], v.fetched).None?;
    }
  }

  /** Server prices {A: 1000, B: 500} and quantities {A: 2, B: 1} give 2500. */
  lemma TotalExample(a: Product, b: Product)
    requires a.id == "A" && a.price == 1000 && a.stock >= 2
    requires b.id == "B" && b.price == 500 && b.stock >= 1
    ensures var r := Assemble([CartItemInput("A", 2), CartItemInput("B", 1)], map["A" := a, "B" := b]);
      r.Ok? && r.value.total == 2500
  {
    var cart := [CartItemInput("A", 2), CartItemInput("B", 1)];
    var fetched := map["A" := a, "B" := b];
    assert cart[..1] == [CartItemInput("A", 2)];
    assert cart[..1][..0] == [];
  }

  /** The stock checks only bound the quantity from above: a negative quantity
      is accepted and lowers the total. */
  lemma NegativeQuantityAccepted(a: Product)
    requires a.id == "A" && a.price == 1000 && a.stock == 0
    ensures Assemble([CartItemInput("A", -1)], map["A" := a]) == Ok(Draft([OrderLine(Some("A"), -1, 1000)], -1000))
  {
    assert [CartItemInput("A", -1)][..0] == [];
  }

  // ---------------------------------------------------------------------------
  // Stock reservation

  /** What happened to one line's stock decrement: the `decrement_stock` RPC
      succeeded, it failed and the fallback update succeeded, or both failed. */
  datatype StockWrite = RpcApplied | FallbackApplied | NotApplied

  /** One iteration of the reservation loop. The fallback writes the stock
      fetched before the loop minus the quantity. */
  function ReserveLine(products: map<ProductId, Product>, line: OrderLine, fetched: map<ProductId, Product>, w: StockWrite): (r: map<ProductId, Product>)
    ensures r.Keys == products.Keys
    ensures w == NotApplied ==> r == products
  {
    if line.productId.None? then products
    else
      var pid := line.productId.value;
      match w
      case RpcApplied => DecrementStock(products, pid, line.quantity)
      case FallbackApplied =>
        if pid in fetched && pid in products
        then products[pid := products[pid].(stock := fetched[pid].stock - line.quantity)]
        else products
      case NotApplied => products
  }

  /** One reservation write changes only the line's product, and of it only the stock. */
  lemma ReserveLineFrame(products: map<ProductId, Product>, line: OrderLine, fetched: map<ProductId, Product>, w: StockWrite)
    ensures var r := ReserveLine(products, line, fetched, w);
      && (forall p :: p in products && line.productId != Some(p) ==> r[p] == products[p])
      && (forall p :: p in r ==> r[p] == products[p].(stock := r[p].stock))
  {
  }

  /** The products table after the reservation loop over `lines`. */
  function Reserved(products: map<ProductId, Product>, lines: seq<OrderLine>, fetched: map<ProductId, Product>,
                    w: nat -> StockWrite): (r: map<ProductId, Product>)
    ensures r.Keys == products.Keys
  {
    if |lines| == 0 then products
    else
      var n := |lines| - 1;
      ReserveLine(Reserved(products, lines[..n], fetched, w), lines[n], fetched, w(n))
  }

  /** The reservation writes only the stock column: every other field of
      every product is left as it was. */
  lemma {:induction false} ReservedOnlyStock(products: map<ProductId, Product>, lines: seq<OrderLine>,
                                             fetched: map<ProductId, Product>, w: nat -> StockWrite)
    ensures var r := Reserved(products, lines, fetched, w);
      forall p :: p in r ==> r[p] == products[p].(stock := r[p].stock)
  {
    if |lines| > 0 {
      var n := |lines| - 1;
      ReservedOnlyStock(products, lines[..n], fetched, w);
      ReserveLineFrame(Reserved(products, lines[..n], fetched, w), lines[n], fetched, w(n));
    }
  }

  ghost predicate DistinctProducts(lines: seq<OrderLine>)
  {
    forall i, j :: 0 <= i < j < |lines| ==> lines[i].productId != lines[j].productId
  }

  ghost predicate Mentions(lines: seq<OrderLine>, pid: ProductId)
  {
    exists i :: 0 <= i < |lines| && lines[i].productId == Some(pid)
  }

  /** The reservation touches only the products its lines name. */
  lemma {:induction false} ReservedFrame(products: map<ProductId, Product>, lines: seq<OrderLine>,
                                         fetched: map<ProductId, Product>, w: nat -> StockWrite, pid: ProductId)
    requires !Mentions(lines, pid)
    ensures var r := Reserved(products, lines, fetched, w);
      (pid in r <==> pid in products) && (pid in products ==> r[pid] == products[pid])
  {
    if |lines| > 0 {
      var n := |lines| - 1;
      ReservedFrame(products, lines[..n], fetched, w, pid);
      assert lines[n].productId != Some(pid);
    }
  }

  /** With one line per product and every write applied (the fallback seeing
      the current stock), each line's product loses exactly its quantity. */
  lemma {:induction false} ReservedLine(products: map<ProductId, Product>, lines: seq<OrderLine>,
                                        fetched: map<ProductId, Product>, w: nat -> StockWrite, i: nat)
    requires DistinctProducts(lines) && i < |lines| && lines[i].productId.Some?
    requires lines[i].productId.value in products
    requires forall j :: 0 <= j < |lines| ==> w(j) != NotApplied
    requires forall p :: p in fetched ==> p in products && fetched[p].stock == products[p].stock
    requires lines[i].productId.value in fetched
    ensures var pid := lines[i].productId.value;
      var r := Reserved(products, lines, fetched, w);
      pid in r && r[pid] == products[pid].(stock := products[pid].stock - lines[i].quantity)
  {
    var n := |lines| - 1;
    var pre := lines[..n];
    var pid := lines[i].productId.value;
    if i == n {
      assert !Mentions(pre, pid);
      ReservedFrame(products, pre, fetched, w, pid);
    } else {
      assert DistinctProducts(pre);
      assert pre[i] == lines[i];
      ReservedLine(products, pre, fetched, w, i);
      assert lines[n].productId != Some(pid);
    }
  }

  /** The reservation loop of createOrder. */
  method ReserveStock(db: Database, lines: seq<OrderLine>, fetched: map<ProductId, Product>, w: nat -> StockWrite)
    modifies db`products
    ensures db.products == Reserved(old(db.products), lines, fetched, w)
  {
    var i := 0;
    while i < |lines|
      invariant 0 <= i <= |lines|
      invariant db.products == Reserved(old(db.products), lines[..i], fetched, w)
    {
      var item := lines[i];
      assert lines[..i + 1][..i] == lines[..i];
      if item.productId.Some? {
        var pid := item.productId.value;
        match w(i)
        case RpcApplied =>
          db.products := DecrementStock(db.products, pid, item.quantity);
        case FallbackApplied =>
          if pid in fetched && pid in db.products {
            db.products := db.products[pid := db.products[pid].(stock := fetched[pid].stock - item.quantity)];
          }
        case NotApplied =>
      }
      i := i + 1;
    }
    assert lines[..i] == lines;
  }

  // ---------------------------------------------------------------------------
  // The whole action

  /** The outcomes of the calls createOrder makes to collaborators outside
      this model: the product fetch, the generated order id, the two inserts,
      each line's stock write, and the payment gateway's token. */
  datatype CheckoutEnv = CheckoutEnv(
    productsFetchFails: bool,
    newOrderId: OrderId,
    orderInsertFails: bool,
    itemsInsertFails: bool,
    stockWrite: nat -> StockWrite,
    token: Option<string>)

  datatype CheckoutSuccess = CheckoutSuccess(orderId: OrderId, snapToken: string)

  /** The order row of a validated request: pending, unpaid, holding the
      server-computed total and the shipping details, and the gateway token
      once it has been stored. */
  function OrderHeader(v: Validated, id: OrderId, token: Option<string>): OrderRow
  {
    OrderRow(id, v.user, v.draft.total, Pending, None, token, Some(v.shipping))
  }

  /** What the caller receives. */
  function CheckoutOutcome(v: Result<Validated, CheckoutError>, env: CheckoutEnv): (r: Result<CheckoutSuccess, CheckoutError>)
    ensures v.Err? ==> r == Err(v.error)
    ensures r.Ok? <==> v.Ok? && !env.orderInsertFails && !env.itemsInsertFails && env.token.Some?
    ensures r.Ok? ==> r.value == CheckoutSuccess(env.newOrderId, env.token.value)
    ensures v.Ok? && env.orderInsertFails ==> r == Err(OrderInsertFailed)
    ensures v.Ok? && !env.orderInsertFails && env.itemsInsertFails ==> r == Err(ItemsInsertFailed)
  {
    if v.Err? then Err(v.error)
    else if env.orderInsertFails then Err(OrderInsertFailed)
    else if env.itemsInsertFails then Err(ItemsInsertFailed)
    else if env.token.None? then Err(PaymentGatewayError)
    else Ok(CheckoutSuccess(env.newOrderId, env.token.value))
  }

  /** The orders table afterwards: one new pending row once the header insert
      succeeds, which stays (without a token) even when a later step fails. */
  function OrdersAfter(orders: map<OrderId, OrderRow>, v: Result<Validated, CheckoutError>, env: CheckoutEnv): (r: map<OrderId, OrderRow>)
    ensures v.Err? || env.orderInsertFails ==> r == orders
    ensures v.Ok? && !env.orderInsertFails ==>
      && r.Keys == orders.Keys + {env.newOrderId}
      && r[env.newOrderId] == OrderHeader(v.value, env.newOrderId, if env.itemsInsertFails then None else env.token)
      && forall o :: o in orders && o != env.newOrderId ==> r[o] == orders[o]
  {
    if v.Err? || env.orderInsertFails then orders
    else orders[env.newOrderId := OrderHeader(v.value, env.newOrderId, if env.itemsInsertFails then None else env.token)]
  }

  /** The order_items table afterwards: the draft's lines under the new id
      once both inserts succeed. */
  function ItemsAfter(items: map<OrderId, seq<OrderLine>>, v: Result<Validated, CheckoutError>, env: CheckoutEnv): (r: map<OrderId, seq<OrderLine>>)
    ensures v.Err? || env.orderInsertFails || env.itemsInsertFails ==> r == items
    ensures v.Ok? && !env.orderInsertFails && !env.itemsInsertFails ==>
      && r.Keys == items.Keys + {env.newOrderId}
      && r[env.newOrderId] == v.value.draft.lines
      && forall o :: o in items && o != env.newOrderId ==> r[o] == items[o]
  {
    if v.Err? || env.orderInsertFails || env.itemsInsertFails then items
    else items[env.newOrderId := v.value.draft.lines]
  }

  /** The products table afterwards: stock is reserved only after both inserts
      succeed, whatever the gateway then does. */
  function ProductsAfter(products: map<ProductId, Product>, v: Result<Validated, CheckoutError>, env: CheckoutEnv): (r: map<ProductId, Product>)
    ensures v.Err? || env.orderInsertFails || env.itemsInsertFails ==> r == products
    ensures r.Keys == products.Keys
    ensures forall p :: p in r ==> r[p] == products[p].(stock := r[p].stock)
  {
    if v.Err? || env.orderInsertFails || env.itemsInsertFails then products
    else
      ReservedOnlyStock(products, v.value.draft.lines, v.value.fetched, env.stockWrite);
      Reserved(products, v.value.draft.lines, v.value.fetched, env.stockWrite)
  }

  /** A failure before the header insert writes nothing. */
  lemma EarlyFailureWritesNothing(orders: map<OrderId, OrderRow>, items: map<OrderId, seq<OrderLine>>,
                                  products: map<ProductId, Product>, v: Result<Validated, CheckoutError>, env: CheckoutEnv)
    requires CheckoutOutcome(v, env).Err? && (v.Err? || env.orderInsertFails)
    ensures OrdersAfter(orders, v, env) == orders
    ensures ItemsAfter(items, v, env) == items
    ensures ProductsAfter(products, v, env) == products
  {
  }

  /** A failed items insert leaves a pending order without lines and with its
      stock untouched. */
  lemma ItemsFailureLeavesOrphanOrder(orders: map<OrderId, OrderRow>, items: map<OrderId, seq<OrderLine>>,
                                      products: map<ProductId, Product>, v: Result<Validated, CheckoutError>, env: CheckoutEnv)
    requires v.Ok? && !env.orderInsertFails && env.itemsInsertFails && env.newOrderId !in items
    ensures CheckoutOutcome(v, env) == Err(ItemsInsertFailed)
    ensures env.newOrderId in OrdersAfter(orders, v, env)
    ensures OrdersAfter(orders, v, env)[env.newOrderId].status == Pending
    ensures env.newOrderId !in ItemsAfter(items, v, env)
    ensures ProductsAfter(products, v, env) == products
  {
  }

  /** A gateway failure still leaves the order, its lines and the stock
      reservation in place, although the caller is told the checkout failed. */
  lemma GatewayFailureKeepsOrder(orders: map<OrderId, OrderRow>, items: map<OrderId, seq<OrderLine>>,
                                 products: map<ProductId, Product>, v: Result<Validated, CheckoutError>, env: CheckoutEnv)
    requires v.Ok? && !env.orderInsertFails && !env.itemsInsertFails && env.token.None?
    ensures CheckoutOutcome(v, env) == Err(PaymentGatewayError)
    ensures OrdersAfter(orders, v, env)[env.newOrderId].snapToken == None
    ensures ItemsAfter(items, v, env)[env.newOrderId] == v.value.draft.lines
    ensures ProductsAfter(products, v, env) == Reserved(products, v.value.draft.lines, v.value.fetched, env.stockWrite)
  {
  }

  /** Whenever the new order has lines, its stored total is the sum of those
      lines' unit price times quantity. */
  lemma StoredTotalMatchesLines(orders: map<OrderId, OrderRow>, items: map<OrderId, seq<OrderLine>>,
                                user: Option<UserId>, cart: seq<CartItemInput>, form: ShippingForm,
                                isEmail: string -> bool, products: map<ProductId, Product>, env: CheckoutEnv)
    requires var v := Validate(user, cart, form, isEmail, env.productsFetchFails, products);
      env.newOrderId in ItemsAfter(items, v, env) && env.newOrderId !in items
    ensures var v := Validate(user, cart, form, isEmail, env.productsFetchFails, products);
      && env.newOrderId in OrdersAfter(orders, v, env)
      && OrdersAfter(orders, v, env)[env.newOrderId].totalAmount == LinesTotal(ItemsAfter(items, v, env)[env.newOrderId])
  {
  }

  /** The stock gate end to end: when the first cart line that fails its
      checks names a product with too little stock, createOrder reports that
      product's insufficient stock and writes no order, no line and no stock. */
  lemma InsufficientStockWritesNothing(orders: map<OrderId, OrderRow>, items: map<OrderId, seq<OrderLine>>,
                                       products: map<ProductId, Product>, user: Option<UserId>,
                                       cart: seq<CartItemInput>, form: ShippingForm, isEmail: string -> bool,
                                       env: CheckoutEnv, k: nat)
    requires user.Some? && ParseShipping(form, isEmail).Some? && !env.productsFetchFails
    requires k < |cart| && cart[k].id in products && products[cart[k].id].stock < cart[k].quantity
    requires forall j :: 0 <= j < k ==> cart[j].id in products && products[cart[j].id].stock >= cart[j].quantity
    ensures var v := Validate(user, cart, form, isEmail, env.productsFetchFails, products);
      && CheckoutOutcome(v, env) == Err(InsufficientStock(products[cart[k].id].name))
      && OrdersAfter(orders, v, env) == orders
      && ItemsAfter(items, v, env) == items
      && ProductsAfter(products, v, env) == products
  {
    var fetched := Fetch(products, cart);
    assert Requested(cart, cart[k].id);
    forall j | 0 <= j < k ensures LineError(cart[j], fetched).None? {
      assert Requested(cart, cart[j].id);
    }
    AssembleFailsAtFirstBadLine(cart, fetched, k);
  }

  /** The checks of createOrder up to the line loop. */
  method ValidateOrder(user: Option<UserId>, cart: seq<CartItemInput>, form: ShippingForm, isEmail: string -> bool,
                       fetchFails: bool, products: map<ProductId, Product>) returns (r: Result<Validated, CheckoutError>)
    ensures r == Validate(user, cart, form, isEmail, fetchFails, products)
  {
    if user.None? {
      return Err(Unauthorized);
    }
    var shipping := ParseShipping(form, isEmail);
    if shipping.None? {
      return Err(InvalidShipping);
    }
    if |cart| == 0 {
      return Err(EmptyCart);
    }
    if fetchFails {
      return Err(ProductsFetchFailed);
    }
    var fetched := Fetch(products, cart);
    var draft := CollectOrderLines(cart, fetched);
    if draft.Err? {
      return Err(draft.error);
    }
    r := Ok(Validated(user.value, shipping.value, fetched, draft.value));
  }

  /** The writes of createOrder once the request has been validated. */
  method PersistOrder(db: Database, v: Validated, env: CheckoutEnv) returns (r: Result<CheckoutSuccess, CheckoutError>)
    requires env.newOrderId !in db.orders
    modifies db`orders, db`orderItems, db`products
    ensures r == CheckoutOutcome(Ok(v), env)
    ensures db.orders == OrdersAfter(old(db.orders), Ok(v), env)
    ensures db.orderItems == ItemsAfter(old(db.orderItems), Ok(v), env)
    ensures db.products == ProductsAfter(old(db.products), Ok(v), env)
  {
    if env.orderInsertFails {
      return Err(OrderInsertFailed);
    }
    var order := OrderHeader(v, env.newOrderId, None);
    db.orders := db.orders[order.id := order];
    if env.itemsInsertFails {
      return Err(ItemsInsertFailed);
    }
    db.orderItems := db.orderItems[order.id := v.draft.lines];
    ReserveStock(db, v.draft.lines, v.fetched, env.stockWrite);
    if env.token.None? {
      return Err(PaymentGatewayError);
    }
    db.orders := db.orders[order.id := order.(snapToken := env.token)];
    r := Ok(CheckoutSuccess(order.id, env.token.value));
  }

  /** createOrder: validation, then the writes. */
  method CreateOrder(db: Database, user: Option<UserId>, cart: seq<CartItemInput>, form: ShippingForm,
                     isEmail: string -> bool, env: CheckoutEnv) returns (r: Result<CheckoutSuccess, CheckoutError>)
    requires env.newOrderId !in db.orders
    modifies db`orders, db`orderItems, db`products
    ensures var v := Validate(user, cart, form, isEmail, env.productsFetchFails, old(db.products));
      && r == CheckoutOutcome(v, env)
      && db.orders == OrdersAfter(old(db.orders), v, env)
      && db.orderItems == ItemsAfter(old(db.orderItems), v, env)
      && db.products == ProductsAfter(old(db.products), v, env)
  {
    var v := ValidateOrder(user, cart, form, isEmail, env.productsFetchFails, db.products);
    if v.Err? {
      return Err(v.error);
    }
    r := PersistOrder(db, v.value, env);
  }

  /** A validated order for a cart with one line per product, every stock
      write applied, takes exactly each line's quantity off its product. */
  lemma ValidatedOrderReservesStock(user: Option<UserId>, cart: seq<CartItemInput>, form: ShippingForm,
                                    isEmail: string -> bool, products: map<ProductId, Product>,
                                    w: nat -> StockWrite, i: nat)
    requires Validate(user, cart, form, isEmail, false, products).Ok?
    requires forall a, b :: 0 <= a < b < |cart| ==> cart[a].id != cart[b].id
    requires forall j :: 0 <= j < |cart| ==> w(j) != NotApplied
    requires i < |cart|
    ensures var v := Validate(user, cart, form, isEmail, false, products).value;
      var r := Reserved(products, v.draft.lines, v.fetched, w);
      cart[i].id in r && r[cart[i].id].stock == products[cart[i].id].stock - cart[i].quantity
  {
    var v := Validate(user, cart, form, isEmail, false, products).value;
    var lines := v.draft.lines;
    assert DistinctProducts(lines) by {
      forall a, b | 0 <= a < b < |lines| ensures lines[a].productId != lines[b].productId {
        assert lines[a].productId == Some(cart[a].id) && lines[b].productId == Some(cart[b].id);
      }
    }
    assert lines[i] == LineFor(cart[i], v.fetched);
    ReservedLine(products, lines, v.fetched, w, i);
  }
}
