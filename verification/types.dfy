/** Records shared by the storefront's stores, hooks and server actions
    (src/types/product.ts, src/types/order.ts). Prices are whole rupiah and
    stock is a count, both as unbounded integers. */
module Types {

  datatype Option<+T> = None | Some(value: T)

  datatype Result<+T, +E> = Ok(value: T) | Err(error: E)

  type ProductId = string
  type UserId = string
  type OrderId = string

  /** A row of the products table. The joined `category` object is not modelled. */
  datatype Product = Product(
    id: ProductId,
    createdAt: string,
    updatedAt: string,
    name: string,
    slug: string,
    description: Option<string>,
    price: int,
    stock: int,
    imageUrl: Option<string>,
    categoryId: string,
    isDeleted: Option<bool>)

  /** A realtime delta: the product id plus any subset of the other fields.
      `None` means "field absent from the payload"; a nullable column that is
      present with value null is `Some(None)`. */
  datatype ProductPatch = ProductPatch(
    id: ProductId,
    createdAt: Option<string>,
    updatedAt: Option<string>,
    name: Option<string>,
    slug: Option<string>,
    description: Option<Option<string>>,
    price: Option<int>,
    stock: Option<int>,
    imageUrl: Option<Option<string>>,
    categoryId: Option<string>,
    isDeleted: Option<bool>)

  /** The payload of an UPDATE event: the full new record, every field present. */
  function FullPatch(p: Product): ProductPatch
  {
    ProductPatch(p.id, Some(p.createdAt), Some(p.updatedAt), Some(p.name), Some(p.slug),
                 Some(p.description), Some(p.price), Some(p.stock), Some(p.imageUrl),
                 Some(p.categoryId), p.isDeleted)
  }

  /** The payload recorded for a DELETE event: `{ id, is_deleted: true }`. */
  function DeletionMarker(id: ProductId): ProductPatch
  {
    ProductPatch(id, None, None, None, None, None, None, None, None, None, Some(true))
  }

  /** `update?.is_deleted` is truthy. */
  predicate MarksDeleted(p: ProductPatch)
  {
    p.isDeleted == Some(true)
  }

  datatype OrderStatus = Pending | Paid | Shipped | Cancelled

  datatype ShippingDetails = ShippingDetails(
    name: string, email: string, phone: string,
    address: string, city: string, postalCode: string)

  /** A row of order_items; the row id and timestamp the database assigns are
      not modelled. `productId` is nullable in the schema. */
  datatype OrderLine = OrderLine(productId: Option<ProductId>, quantity: int, unitPrice: int)

  /** The columns of a row of the orders table (timestamps not modelled). */
  datatype OrderRow = OrderRow(
    id: OrderId,
    userId: UserId,
    totalAmount: int,
    status: OrderStatus,
    paymentId: Option<string>,
    snapToken: Option<string>,
    shipping: Option<ShippingDetails>)

  /** An order as the admin API returns it: the row plus its joined items. */
  datatype Order = Order(row: OrderRow, items: Option<seq<OrderLine>>)
}

/** The Supabase tables the server actions read and write, each as an abstract map. */
module Backend {
  import opened Types

  /** cart_items rows are identified by (user_id, product_id). */
  datatype CartKey = CartKey(user: UserId, product: ProductId)

  /** The `decrement_stock(row_id, amount)` database function, whose body is not
      part of this model: taken to subtract `amount` from the row's current
      stock, and to do nothing when no row has that id. */
  function DecrementStock(products: map<ProductId, Product>, pid: ProductId, amount: int): (r: map<ProductId, Product>)
    ensures r.Keys == products.Keys
    ensures pid in products ==> r[pid] == products[pid].(stock := products[pid].stock - amount)
    ensures forall q :: q in products && q != pid ==> r[q] == products[q]
  {
    if pid in products then products[pid := products[pid].(stock := products[pid].stock - amount)] else products
  }

  class Database {
    var products: map<ProductId, Product>
    var orders: map<OrderId, OrderRow>
    /** order_items grouped by their order_id. */
    var orderItems: map<OrderId, seq<OrderLine>>
    var cartItems: map<CartKey, int>

    constructor ()
      ensures products == map[] && orders == map[] && orderItems == map[] && cartItems == map[]
    {
      products, orders, orderItems, cartItems := map[], map[], map[], map[];
    }
  }
}
