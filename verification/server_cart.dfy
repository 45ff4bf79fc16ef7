/** The server cart actions (src/actions/cart.ts) over the cart_items table.
    Every action is a silent no-op for a guest (no signed-in user). */
module ServerCart {
  import opened Types
  import opened Backend
  import CartStore

  /** An entry of `getCart`: the joined product's fields (absent when the join
      yields null) plus the row's quantity. */
  datatype CartEntry = CartEntry(product: Option<Product>, quantity: int)

  /** `b` equals `a` on every key other than `key`. */
  ghost predicate AgreeExcept(a: map<CartKey, int>, b: map<CartKey, int>, key: CartKey)
  {
    forall k :: k != key ==> (k in a <==> k in b) && (k in a ==> a[k] == b[k])
  }

  /** The user's rows as product id to quantity: what syncCart reads before its loop. */
  function UserRows(rows: map<CartKey, int>, user: UserId): (r: map<ProductId, int>)
    ensures forall p :: p in r <==> CartKey(user, p) in rows
    ensures forall p :: p in r ==> r[p] == rows[CartKey(user, p)]
  {
    map k | k in rows && k.user == user :: k.product := rows[k]
  }

  /** addToCart: an existing (user, product) row gains `quantity`; otherwise a
      row with exactly `quantity` is inserted. */
  function AddedToCart(rows: map<CartKey, int>, user: Option<UserId>, pid: ProductId, quantity: int): (r: map<CartKey, int>)
    ensures user.None? ==> r == rows
    ensures user.Some? ==>
      var key := CartKey(user.value, pid);
      && key in r && r[key] == (if key in rows then rows[key] + quantity else quantity)
      && AgreeExcept(rows, r, key)
  {
    if user.None? then rows
    else
      var key := CartKey(user.value, pid);
      if key in rows then rows[key := rows[key] + quantity] else rows[key := quantity]
  }

  /** removeFromCart: only the (user, product) row is deleted. */
  function RemovedFromCart(rows: map<CartKey, int>, user: Option<UserId>, pid: ProductId): (r: map<CartKey, int>)
    ensures user.None? ==> r == rows
    ensures user.Some? ==> CartKey(user.value, pid) !in r && AgreeExcept(rows, r, CartKey(user.value, pid))
  {
    if user.None? then rows else rows - {CartKey(user.value, pid)}
  }

  /** updateCartItem: a non-positive quantity removes the row; otherwise the
      existing row is set to exactly `quantity` (no stock check). An update
      matching no row changes nothing. */
  function UpdatedCartItem(rows: map<CartKey, int>, user: Option<UserId>, pid: ProductId, quantity: int): (r: map<CartKey, int>)
    ensures user.None? ==> r == rows
    ensures quantity <= 0 ==> r == RemovedFromCart(rows, user, pid)
    ensures user.Some? && quantity > 0 ==>
      var key := CartKey(user.value, pid);
      && (key in r <==> key in rows) && (key in r ==> r[key] == quantity)
      && AgreeExcept(rows, r, key)
  {
    if user.None? then rows
    else if quantity <= 0 then RemovedFromCart(rows, user, pid)
    else
      var key := CartKey(user.value, pid);
      if key in rows then rows[key := quantity] else rows
  }

  /** getCart: one entry per row of the user, the product joined by id. */
  function GetCart(rows: map<CartKey, int>, products: map<ProductId, Product>, user: Option<UserId>): (r: map<ProductId, CartEntry>)
    ensures user.None? ==> r == map[]
    ensures user.Some? ==> forall p :: p in r <==> CartKey(user.value, p) in rows
    ensures user.Some? ==> forall p :: p in r ==>
      && r[p].quantity == rows[CartKey(user.value, p)]
      && r[p].product == (if p in products then Some(products[p]) else None)
  {
    if user.None? then map[]
    else
      var mine := UserRows(rows, user.value);
      map p | p in mine :: CartEntry(if p in products then Some(products[p]) else None, mine[p])
  }

  /** One iteration of syncCart's loop, against the quantities read before the loop. */
  function SyncStep(rows: map<CartKey, int>, user: UserId, snapshot: map<ProductId, int>, item: CartStore.CartItem): (r: map<CartKey, int>)
    ensures var key := CartKey(user, item.product.id);
      && AgreeExcept(rows, r, key)
      && (item.product.id !in snapshot ==> key in r && r[key] == item.quantity)
      && (item.product.id in snapshot ==> (key in r <==> key in rows))
      && (item.product.id in snapshot && key in rows ==> r[key] == snapshot[item.product.id] + item.quantity)
  {
    var key := CartKey(user, item.product.id);
    if item.product.id in snapshot then
      (if key in rows then rows[key := snapshot[item.product.id] + item.quantity] else rows)
    else rows[key := item.quantity]
  }

  /** The table after syncCart's loop has handled `items` in order. */
  function SyncFold(rows: map<CartKey, int>, user: UserId, snapshot: map<ProductId, int>, items: seq<CartStore.CartItem>): (r: map<CartKey, int>)
    ensures rows.Keys <= r.Keys
  {
    if |items| == 0 then rows
    else SyncStep(SyncFold(rows, user, snapshot, items[..|items| - 1]), user, snapshot, items[|items| - 1])
  }

  ghost predicate Mentions(items: seq<CartStore.CartItem>, pid: ProductId)
  {
    exists i :: 0 <= i < |items| && items[i].product.id == pid
  }

  /** syncCart's loop leaves every row it was not asked about unchanged. */
  lemma {:induction false} SyncFrame(rows: map<CartKey, int>, user: UserId, snapshot: map<ProductId, int>,
                                     items: seq<CartStore.CartItem>, k: CartKey)
    requires k.user != user || !Mentions(items, k.product)
    ensures var r := SyncFold(rows, user, snapshot, items);
      (k in r <==> k in rows) && (k in rows ==> r[k] == rows[k])
  {
    if |items| > 0 {
      var n := |items| - 1;
      SyncFrame(rows, user, snapshot, items[..n], k);
      assert k != CartKey(user, items[n].product.id);
    }
  }

  /** The line at index `i` of a local cart with one line per product ends at
      DB quantity plus local quantity when the DB had the product, and at the
      local quantity otherwise. */
  lemma {:induction false} SyncMergedLine(rows: map<CartKey, int>, user: UserId, items: seq<CartStore.CartItem>, i: nat)
    requires CartStore.UniqueIds(items) && i < |items|
    ensures var r := SyncFold(rows, user, UserRows(rows, user), items);
      var k := CartKey(user, items[i].product.id);
      k in r && r[k] == (if k in rows then rows[k] + items[i].quantity else items[i].quantity)
  {
    var snapshot := UserRows(rows, user);
    var n := |items| - 1;
    var pre, x := items[..n], items[n];
    var before := SyncFold(rows, user, snapshot, pre);
    assert SyncFold(rows, user, snapshot, items) == SyncStep(before, user, snapshot, x);
    if i == n {
      SyncFrame(rows, user, snapshot, pre, CartKey(user, x.product.id));
    } else {
      assert CartStore.UniqueIds(pre);
      SyncMergedLine(rows, user, pre, i);
      assert pre[i] == items[i];
      assert items[i].product.id != x.product.id;
    }
  }

  /** The merge law of syncCart, for a local cart with one line per product:
      a product in both carts ends at DB quantity plus local quantity, a
      product only in the local cart gets the local quantity, a product only in
      the DB is unchanged, and no other user's row is touched. */
  lemma SyncMerge(rows: map<CartKey, int>, user: UserId, items: seq<CartStore.CartItem>)
    requires CartStore.UniqueIds(items)
    ensures var r := SyncFold(rows, user, UserRows(rows, user), items);
      && (forall k: CartKey :: k.user != user || !Mentions(items, k.product) ==>
            (k in r <==> k in rows) && (k in rows ==> r[k] == rows[k]))
      && (forall i :: 0 <= i < |items| ==>
            var k := CartKey(user, items[i].product.id);
            k in r && r[k] == (if k in rows then rows[k] + items[i].quantity else items[i].quantity))
  {
    var snapshot := UserRows(rows, user);
    forall k: CartKey | k.user != user || !Mentions(items, k.product)
      ensures var r := SyncFold(rows, user, snapshot, items);
        (k in r <==> k in rows) && (k in rows ==> r[k] == rows[k])
    {
      SyncFrame(rows, user, snapshot, items, k);
    }
    forall i | 0 <= i < |items|
      ensures var r := SyncFold(rows, user, snapshot, items);
        var k := CartKey(user, items[i].product.id);
        k in r && r[k] == (if k in rows then rows[k] + items[i].quantity else items[i].quantity)
    {
      SyncMergedLine(rows, user, items, i);
    }
  }

  function Sample(id: ProductId): Product
  {
    Product(id, "", "", id, id, None, 1000, 10, None, "c", None)
  }

  /** Local {A: 2} merged into DB {A: 3, B: 1} gives {A: 5, B: 1}. */
  lemma SyncExample(u: UserId)
    ensures var rows := map[CartKey(u, "A") := 3, CartKey(u, "B") := 1];
      var local := [CartStore.CartItem(Sample("A"), 2)];
      SyncFold(rows, u, UserRows(rows, u), local) == map[CartKey(u, "A") := 5, CartKey(u, "B") := 1]
  {
    var rows := map[CartKey(u, "A") := 3, CartKey(u, "B") := 1];
    var local := [CartStore.CartItem(Sample("A"), 2)];
    assert CartKey(u, "A") != CartKey(u, "B");
    SyncMerge(rows, u, local);
    var r := SyncFold(rows, u, UserRows(rows, u), local);
    assert r.Keys == {CartKey(u, "A"), CartKey(u, "B")} by {
      forall k | k in r ensures k == CartKey(u, "A") || k == CartKey(u, "B") {
        if k.user == u && Mentions(local, k.product) {
          assert k.product == "A";
        }
      }
    }
  }

  method AddToCart(db: Database, user: Option<UserId>, pid: ProductId, quantity: int)
    modifies db`cartItems
    ensures db.cartItems == AddedToCart(old(db.cartItems), user, pid, quantity)
  {
    if user.None? {
      return;
    }
    var key := CartKey(user.value, pid);
    if key in db.cartItems {
      db.cartItems := db.cartItems[key := db.cartItems[key] + quantity];
    } else {
      db.cartItems := db.cartItems[key := quantity];
    }
  }

  method RemoveFromCart(db: Database, user: Option<UserId>, pid: ProductId)
    modifies db`cartItems
    ensures db.cartItems == RemovedFromCart(old(db.cartItems), user, pid)
  {
    if user.None? {
      return;
    }
    db.cartItems := db.cartItems - {CartKey(user.value, pid)};
  }

  method UpdateCartItem(db: Database, user: Option<UserId>, pid: ProductId, quantity: int)
    modifies db`cartItems
    ensures db.cartItems == UpdatedCartItem(old(db.cartItems), user, pid, quantity)
  {
    if user.None? {
      return;
    }
    if quantity <= 0 {
      RemoveFromCart(db, user, pid);
      return;
    }
    var key := CartKey(user.value, pid);
    if key in db.cartItems {
      db.cartItems := db.cartItems[key := quantity];
    }
  }

  /** syncCart: the user's quantities are read once, then each local line is
      merged into the table in order. */
  method SyncCart(db: Database, user: Option<UserId>, localItems: seq<CartStore.CartItem>)
    modifies db`cartItems
    ensures user.None? ==> db.cartItems == old(db.cartItems)
    ensures user.Some? ==>
      db.cartItems == SyncFold(old(db.cartItems), user.value, UserRows(old(db.cartItems), user.value), localItems)
  {
    if user.None? {
      return;
    }
    var u := user.value;
    var dbItemMap := UserRows(db.cartItems, u);
    var i := 0;
    while i < |localItems|
      invariant 0 <= i <= |localItems|
      invariant db.cartItems == SyncFold(old(db.cartItems), u, dbItemMap, localItems[..i])
    {
      var item := localItems[i];
      var key := CartKey(u, item.product.id);
      if item.product.id in dbItemMap {
        if key in db.cartItems {
          db.cartItems := db.cartItems[key := dbItemMap[item.product.id] + item.quantity];
        }
      } else {
        db.cartItems := db.cartItems[key := item.quantity];
      }
      assert localItems[..i + 1][..i] == localItems[..i];
      i := i + 1;
    }
    assert localItems[..i] == localItems;
  }
}
