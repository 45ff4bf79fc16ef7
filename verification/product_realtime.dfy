/** The live view of one product (src/hooks/use-product-realtime.ts): the
    recorded delta overlaid onto the server-rendered product, null once the
    product is marked deleted, and an out-of-stock alert driven by the
    previously seen stock. */
module ProductRealtime {
  import opened Types
  import opened RealtimeStore

  function Pick<T>(o: Option<T>, base: T): T
  {
    if o.Some? then o.value else base
  }

  /** `{ ...base, ...patch }`: every field present in the patch overrides the
      base, every absent one keeps the base's value. */
  function Overlay(base: Product, patch: ProductPatch): (r: Product)
    ensures r.id == patch.id
    ensures patch.createdAt.Some? ==> r.createdAt == patch.createdAt.value
    ensures patch.createdAt.None? ==> r.createdAt == base.createdAt
    ensures patch.updatedAt.Some? ==> r.updatedAt == patch.updatedAt.value
    ensures patch.updatedAt.None? ==> r.updatedAt == base.updatedAt
    ensures patch.name.Some? ==> r.name == patch.name.value
    ensures patch.name.None? ==> r.name == base.name
    ensures patch.slug.Some? ==> r.slug == patch.slug.value
    ensures patch.slug.None? ==> r.slug == base.slug
    ensures patch.description.Some? ==> r.description == patch.description.value
    ensures patch.description.None? ==> r.description == base.description
    ensures patch.price.Some? ==> r.price == patch.price.value
    ensures patch.price.None? ==> r.price == base.price
    ensures patch.stock.Some? ==> r.stock == patch.stock.value
    ensures patch.stock.None? ==> r.stock == base.stock
    ensures patch.imageUrl.Some? ==> r.imageUrl == patch.imageUrl.value
    ensures patch.imageUrl.None? ==> r.imageUrl == base.imageUrl
    ensures patch.categoryId.Some? ==> r.categoryId == patch.categoryId.value
    ensures patch.categoryId.None? ==> r.categoryId == base.categoryId
    ensures patch.isDeleted.Some? ==> r.isDeleted == patch.isDeleted
    ensures patch.isDeleted.None? ==> r.isDeleted == base.isDeleted
  {
    Product(patch.id,
            Pick(patch.createdAt, base.createdAt), Pick(patch.updatedAt, base.updatedAt),
            Pick(patch.name, base.name), Pick(patch.slug, base.slug),
            Pick(patch.description, base.description), Pick(patch.price, base.price),
            Pick(patch.stock, base.stock), Pick(patch.imageUrl, base.imageUrl),
            Pick(patch.categoryId, base.categoryId),
            if patch.isDeleted.Some? then patch.isDeleted else base.isDeleted)
  }

  /** `state.updates[initialProduct.id]`: the delta the hook subscribes to. */
  function Delta(updates: map<ProductId, ProductPatch>, id: ProductId): Option<ProductPatch>
  {
    if id in updates then Some(updates[id]) else None
  }

  /** The hook's result: the initial product when no delta is recorded for its
      id, `None` (null) when the delta marks it deleted, the overlay otherwise. */
  function LiveProduct(updates: map<ProductId, ProductPatch>, base: Product): (r: Option<Product>)
    ensures base.id !in updates ==> r == Some(base)
    ensures base.id in updates ==> (r.None? <==> MarksDeleted(updates[base.id]))
    ensures KeyedById(updates) && r.Some? ==> r.value.id == base.id
  {
    if base.id !in updates then Some(base)
    else if MarksDeleted(updates[base.id]) then None
    else Some(Overlay(base, updates[base.id]))
  }

  /** After an UPDATE event, the live product is the new record (the optional
      `is_deleted` flag, when the record lacks it, is kept from the base). */
  lemma LiveAfterUpdateEvent(s: RealtimeState, base: Product, p: Product)
    requires p.id == base.id && p.isDeleted != Some(true)
    ensures var r := LiveProduct(Dispatch(s, UpdateEvent(p)).updates, base);
      r.Some? && r.value.(isDeleted := p.isDeleted) == p
  {
  }

  /** After a DELETE event, the live product is null. */
  lemma LiveAfterDeleteEvent(s: RealtimeState, base: Product)
    ensures LiveProduct(Dispatch(s, DeleteEvent(base.id)).updates, base) == None
  {
  }

  /** Events about other products do not change this product's live view. */
  lemma LiveIgnoresOtherIds(s: RealtimeState, base: Product, e: ProductEvent)
    requires e.UpdateEvent? ==> e.record.id != base.id
    requires e.DeleteEvent? ==> e.oldId != base.id
    ensures LiveProduct(Dispatch(s, e).updates, base) == LiveProduct(s.updates, base)
  {
  }

  /** One run of the effect: given the tracked stock, whether the
      "out of stock" toast fires and the new tracked stock. A deleted product
      neither alerts nor moves the tracked stock. */
  function AlertStep(prevStock: int, update: Option<ProductPatch>, base: Product): (r: (bool, int))
    ensures update.Some? && MarksDeleted(update.value) ==> r == (false, prevStock)
    ensures r.0 <==> !(update.Some? && MarksDeleted(update.value)) && prevStock > 0 && r.1 == 0
  {
    if update.Some? && MarksDeleted(update.value) then (false, prevStock)
    else
      var live := if update.Some? then Overlay(base, update.value) else base;
      (prevStock > 0 && live.stock == 0, live.stock)
  }

  /** The effect follows the product the hook returns: when the hook returns
      null nothing happens, otherwise the alert fires exactly on a transition
      from a positive tracked stock to a live stock of zero, and the tracked
      stock becomes the live stock. */
  lemma AlertFollowsLiveProduct(prevStock: int, updates: map<ProductId, ProductPatch>, base: Product)
    ensures var r := AlertStep(prevStock, Delta(updates, base.id), base);
      var live := LiveProduct(updates, base);
      && (live.None? ==> r == (false, prevStock))
      && (live.Some? ==> r == (prevStock > 0 && live.value.stock == 0, live.value.stock))
  {
  }

  /** The tracked stock after a sequence of effect runs. */
  function Tracked(prevStock: int, runs: seq<Option<ProductPatch>>, base: Product): int
  {
    if |runs| == 0 then prevStock
    else AlertStep(Tracked(prevStock, runs[..|runs| - 1], base), runs[|runs| - 1], base).1
  }

  /** The alert raised by each of a sequence of effect runs. */
  function Alerts(prevStock: int, runs: seq<Option<ProductPatch>>, base: Product): (r: seq<bool>)
    ensures |r| == |runs|
  {
    if |runs| == 0 then []
    else
      var n := |runs| - 1;
      Alerts(prevStock, runs[..n], base) + [AlertStep(Tracked(prevStock, runs[..n], base), runs[n], base).0]
  }

  /** Over any sequence of effect runs, the i-th run alerts exactly when the
      product is not deleted and the tracked stock goes from positive to zero
      across that run. */
  lemma {:induction false} AlertsOnlyOnDrop(prevStock: int, runs: seq<Option<ProductPatch>>, base: Product, i: nat)
    requires i < |runs|
    ensures Alerts(prevStock, runs, base)[i] <==>
      && !(runs[i].Some? && MarksDeleted(runs[i].value))
      && Tracked(prevStock, runs[..i], base) > 0
      && Tracked(prevStock, runs[..i + 1], base) == 0
  {
    var n := |runs| - 1;
    if i == n {
      assert runs[..i + 1] == runs;
    } else {
      AlertsOnlyOnDrop(prevStock, runs[..n], base, i);
      assert runs[..n][..i] == runs[..i];
      assert runs[..n][..i + 1] == runs[..i + 1];
    }
  }

  /** Re-running the effect on the same inputs never raises a second alert. */
  lemma NoRepeatedAlert(prevStock: int, update: Option<ProductPatch>, base: Product)
    ensures var (_, next) := AlertStep(prevStock, update, base);
      !AlertStep(next, update, base).0
  {
  }

  /** The `prevStock` ref of one mounted hook. */
  class StockWatch {
    var prevStock: int

    /** The ref starts at the initial product's stock. */
    constructor (initial: Product)
      ensures prevStock == initial.stock
    {
      prevStock := initial.stock;
    }

    method Effect(update: Option<ProductPatch>, initial: Product) returns (alert: bool)
      modifies this
      ensures (alert, prevStock) == AlertStep(old(prevStock), update, initial)
    {
      alert := false;
      if update.Some? && MarksDeleted(update.value) {
        return;
      }
      var live := if update.Some? then Overlay(initial, update.value) else initial;
      if prevStock > 0 && live.stock == 0 {
        alert := true;
      }
      prevStock := live.stock;
    }
  }
}
