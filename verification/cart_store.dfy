/** The client-side cart (src/store/use-cart-store.ts): an ordered list of
    lines, one per product id, plus the panel's `isOpen` flag. */
module CartStore {
  import opened Types

  /** A cart line: the product as it was when first added, plus a quantity. */
  datatype CartItem = CartItem(product: Product, quantity: int)

  datatype CartState = CartState(items: seq<CartItem>, isOpen: bool)

  /** What `addItem` reports through its toast. */
  datatype AddOutcome = OutOfStock | StockExceeded(available: int) | Added

  /** What `updateQuantity` does. */
  datatype UpdateOutcome = NoLine | OverStock(available: int) | RemovedLine | QuantitySet

  ghost predicate UniqueIds(items: seq<CartItem>)
  {
    forall i, j :: 0 <= i < j < |items| ==> items[i].product.id != items[j].product.id
  }

  /** The cart's invariant: one line per product id, every quantity at least 1. */
  ghost predicate Valid(items: seq<CartItem>)
  {
    UniqueIds(items) && forall i :: 0 <= i < |items| ==> items[i].quantity >= 1
  }

  /** `items.find(item => item.id === id)`, as the index of the first match. */
  function Find(items: seq<CartItem>, id: ProductId): (r: Option<nat>)
    ensures r.Some? ==> r.value < |items| && items[r.value].product.id == id
    ensures r.Some? ==> forall j :: 0 <= j < r.value ==> items[j].product.id != id
    ensures r.None? <==> forall j :: 0 <= j < |items| ==> items[j].product.id != id
  {
    if |items| == 0 then None
    else if items[0].product.id == id then Some(0)
    else match Find(items[1..], id)
      case None => None
      case Some(k) => Some(k + 1)
  }

  /** `items.filter(item => item.id !== id)`. */
  function Without(items: seq<CartItem>, id: ProductId): (r: seq<CartItem>)
    ensures |r| <= |items|
    ensures forall x :: x in r <==> x in items && x.product.id != id
  {
    if |items| == 0 then []
    else (if items[0].product.id == id then [] else [items[0]]) + Without(items[1..], id)
  }

  /** The lines with `id` get quantity `q`; the others are kept. */
  function WithQuantity(items: seq<CartItem>, id: ProductId, q: int): seq<CartItem>
  {
    seq(|items|, i requires 0 <= i < |items| =>
      if items[i].product.id == id then items[i].(quantity := q) else items[i])
  }

  /** The lines with `id` get one more unit; the others are kept. */
  function Incremented(items: seq<CartItem>, id: ProductId): seq<CartItem>
  {
    seq(|items|, i requires 0 <= i < |items| =>
      if items[i].product.id == id then items[i].(quantity := items[i].quantity + 1) else items[i])
  }

  /** `addItem(product)`: the new state and the toast it raises. */
  function AddStep(s: CartState, p: Product): (r: (CartState, AddOutcome))
    ensures r.1 == OutOfStock <==> p.stock == 0
    ensures r.1 == Added <==>
      p.stock != 0 && (Find(s.items, p.id).None? || s.items[Find(s.items, p.id).value].quantity + 1 <= p.stock)
    ensures r.1 != Added ==> r.0 == s
    ensures r.1 == Added ==> r.0.isOpen && |s.items| <= |r.0.items| <= |s.items| + 1
  {
    if p.stock == 0 then (s, OutOfStock)
    else match Find(s.items, p.id)
      case Some(k) =>
        if s.items[k].quantity + 1 > p.stock then (s, StockExceeded(p.stock))
        else (CartState(Incremented(s.items, p.id), true), Added)
      case None => (CartState(s.items + [CartItem(p, 1)], true), Added)
  }

  /** `updateQuantity(id, quantity)`: the stock check against the line's stored
      snapshot runs before the "non-positive means remove" check. */
  function UpdateStep(s: CartState, id: ProductId, q: int): (r: (CartState, UpdateOutcome))
    ensures r.1 == NoLine <==> Find(s.items, id).None?
    ensures r.1.OverStock? <==> Find(s.items, id).Some? && q > s.items[Find(s.items, id).value].product.stock
    ensures r.1 == NoLine || r.1.OverStock? ==> r.0 == s
    ensures r.0.isOpen == s.isOpen && |r.0.items| <= |s.items|
    ensures r.1 == RemovedLine ==> q <= 0 && forall x :: x in r.0.items <==> x in s.items && x.product.id != id
  {
    match Find(s.items, id)
    case None => (s, NoLine)
    case Some(k) =>
      if q > s.items[k].product.stock then (s, OverStock(s.items[k].product.stock))
      else if q <= 0 then (s.(items := Without(s.items, id)), RemovedLine)
      else (s.(items := WithQuantity(s.items, id, q)), QuantitySet)
  }

  // ---------------------------------------------------------------------------
  // Properties of the cart operations

  /** Out of stock: nothing changes, not even the panel flag. */
  lemma AddOutOfStockIsNoOp(s: CartState, p: Product)
    requires p.stock == 0
    ensures AddStep(s, p) == (s, OutOfStock)
  {
  }

  /** A present line whose next unit would exceed the live stock is left alone. */
  lemma AddOverStockIsNoOp(s: CartState, p: Product, k: nat)
    requires UniqueIds(s.items) && k < |s.items| && s.items[k].product.id == p.id
    requires p.stock != 0 && s.items[k].quantity + 1 > p.stock
    ensures AddStep(s, p) == (s, StockExceeded(p.stock))
  {
    assert Find(s.items, p.id) == Some(k);
  }

  /** A present line within stock: exactly that line gains one unit and keeps
      its stored product (including its old stock snapshot); the panel opens. */
  lemma AddPresentIncrements(s: CartState, p: Product, k: nat)
    requires UniqueIds(s.items) && k < |s.items| && s.items[k].product.id == p.id
    requires p.stock != 0 && s.items[k].quantity + 1 <= p.stock
    ensures var (t, o) := AddStep(s, p);
      && o == Added && t.isOpen
      && |t.items| == |s.items|
      && t.items[k] == CartItem(s.items[k].product, s.items[k].quantity + 1)
      && forall j :: 0 <= j < |s.items| && j != k ==> t.items[j] == s.items[j]
  {
    assert Find(s.items, p.id) == Some(k);
  }

  /** An absent product is appended as a single unit at the end; the panel opens. */
  lemma AddAbsentAppends(s: CartState, p: Product)
    requires p.stock != 0
    requires forall j :: 0 <= j < |s.items| ==> s.items[j].product.id != p.id
    ensures AddStep(s, p) == (CartState(s.items + [CartItem(p, 1)], true), Added)
  {
  }

  lemma {:induction false} WithoutConcat(a: seq<CartItem>, b: seq<CartItem>, id: ProductId)
    ensures Without(a + b, id) == Without(a, id) + Without(b, id)
  {
    if |a| == 0 {
      assert a + b == b;
    } else {
      assert (a + b)[1..] == a[1..] + b;
      WithoutConcat(a[1..], b, id);
    }
  }

  /** Removing an id that no line carries changes nothing. */
  lemma {:induction false} WithoutAbsent(items: seq<CartItem>, id: ProductId)
    requires forall j :: 0 <= j < |items| ==> items[j].product.id != id
    ensures Without(items, id) == items
  {
    if |items| > 0 {
      WithoutAbsent(items[1..], id);
    }
  }

  /** `removeItem` twice is `removeItem` once. */
  lemma RemoveIdempotent(items: seq<CartItem>, id: ProductId)
    ensures Without(Without(items, id), id) == Without(items, id)
  {
    var r := Without(items, id);
    forall j | 0 <= j < |r| ensures r[j].product.id != id {
      assert r[j] in r;
    }
    WithoutAbsent(r, id);
  }

  lemma WithoutOne(x: CartItem)
    ensures Without([x], x.product.id) == []
  {
    assert [x][1..] == [];
    assert Without([x][1..], x.product.id) == [];
  }

  lemma WithoutSplit(pre: seq<CartItem>, x: CartItem, post: seq<CartItem>)
    requires forall j :: 0 <= j < |pre| ==> pre[j].product.id != x.product.id
    requires forall j :: 0 <= j < |post| ==> post[j].product.id != x.product.id
    ensures Without(pre + [x] + post, x.product.id) == pre + post
  {
    var id := x.product.id;
    WithoutOne(x);
    WithoutConcat(pre, [x], id);
    WithoutAbsent(pre, id);
    assert Without(pre + [x], id) == pre;
    WithoutConcat(pre + [x], post, id);
    WithoutAbsent(post, id);
  }

  /** With unique ids, removing the line at `k` keeps the others in order. */
  lemma WithoutAt(items: seq<CartItem>, k: nat)
    requires UniqueIds(items) && k < |items|
    ensures Without(items, items[k].product.id) == items[..k] + items[k + 1..]
  {
    var pre, post := items[..k], items[k + 1..];
    assert items == pre + [items[k]] + post;
    WithoutSplit(pre, items[k], post);
  }

  /** `updateQuantity` on an unknown id, or above the line's stored stock, does nothing. */
  lemma UpdateRejected(s: CartState, id: ProductId, q: int)
    requires Find(s.items, id).None? || q > s.items[Find(s.items, id).value].product.stock
    ensures UpdateStep(s, id, q).0 == s
  {
  }

  /** Within the stored stock, a non-positive quantity removes the line and a
      positive one sets exactly that line's quantity; other lines are untouched. */
  lemma UpdateWithinStock(s: CartState, q: int, k: nat)
    requires UniqueIds(s.items) && k < |s.items| && q <= s.items[k].product.stock
    ensures var t := UpdateStep(s, s.items[k].product.id, q).0;
      && t.isOpen == s.isOpen
      && (q <= 0 ==> t.items == s.items[..k] + s.items[k + 1..])
      && (q > 0 ==> |t.items| == |s.items| && t.items[k] == s.items[k].(quantity := q)
                    && forall j :: 0 <= j < |s.items| && j != k ==> t.items[j] == s.items[j])
  {
    assert Find(s.items, s.items[k].product.id) == Some(k);
    if q <= 0 {
      WithoutAt(s.items, k);
    }
  }

  lemma WithoutValid(items: seq<CartItem>, id: ProductId)
    requires Valid(items)
    ensures Valid(Without(items, id))
  {
    if |items| > 0 {
      WithoutValid(items[1..], id);
      var rest := Without(items[1..], id);
      forall x | x in rest ensures x.product.id != items[0].product.id {
        var j :| 0 <= j < |items[1..]| && items[1..][j] == x;
        assert items[j + 1] == x;
      }
    }
  }

  /** `addItem` keeps one line per id and every quantity positive. */
  lemma AddPreservesValid(s: CartState, p: Product)
    requires Valid(s.items)
    ensures Valid(AddStep(s, p).0.items)
  {
  }

  /** `updateQuantity` keeps one line per id and every quantity positive. */
  lemma UpdatePreservesValid(s: CartState, id: ProductId, q: int)
    requires Valid(s.items)
    ensures Valid(UpdateStep(s, id, q).0.items)
  {
    WithoutValid(s.items, id);
  }

  /** The store: `items` and `isOpen`, overwritten by every action. */
  class Cart {
    var items: seq<CartItem>
    var isOpen: bool

    constructor ()
      ensures items == [] && !isOpen
    {
      items, isOpen := [], false;
    }

    function State(): CartState
      reads this
    {
      CartState(items, isOpen)
    }

    method AddItem(product: Product) returns (outcome: AddOutcome)
      modifies this
      ensures (State(), outcome) == AddStep(old(State()), product)
      ensures old(Valid(items)) ==> Valid(items)
    {
      if Valid(items) {
        AddPreservesValid(State(), product);
      }
      var existing := Find(items, product.id);
      if product.stock == 0 {
        return OutOfStock;
      }
      if existing.Some? {
        if items[existing.value].quantity + 1 > product.stock {
          return StockExceeded(product.stock);
        }
        items, isOpen := Incremented(items, product.id), true;
      } else {
        items, isOpen := items + [CartItem(product, 1)], true;
      }
      outcome := Added;
    }

    method RemoveItem(id: ProductId)
      modifies this
      ensures items == Without(old(items), id) && isOpen == old(isOpen)
      ensures old(Valid(items)) ==> Valid(items)
    {
      if Valid(items) {
        WithoutValid(items, id);
      }
      items := Without(items, id);
    }

    method UpdateQuantity(id: ProductId, quantity: int) returns (outcome: UpdateOutcome)
      modifies this
      ensures (State(), outcome) == UpdateStep(old(State()), id, quantity)
      ensures old(Valid(items)) ==> Valid(items)
    {
      if Valid(items) {
        UpdatePreservesValid(State(), id, quantity);
      }
      var found := Find(items, id);
      if found.None? {
        return NoLine;
      }
      var item := items[found.value];
      if quantity > item.product.stock {
        return OverStock(item.product.stock);
      }
      if quantity <= 0 {
        items := Without(items, id);
        return RemovedLine;
      }
      items := WithQuantity(items, id, quantity);
      outcome := QuantitySet;
    }

    method ClearCart()
      modifies this
      ensures items == [] && isOpen == old(isOpen)
    {
      items := [];
    }

    method ToggleCart()
      modifies this
      ensures isOpen == !old(isOpen) && items == old(items)
    {
      isOpen := !isOpen;
    }

    method SetOpen(open: bool)
      modifies this
      ensures isOpen == open && items == old(items)
    {
      isOpen := open;
    }
  }
}
