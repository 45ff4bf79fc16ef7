/** The process-wide realtime projection store (src/store/use-realtime-store.ts)
    and the provider that feeds it from the products change feed
    (src/components/providers/realtime-products-provider.tsx). */
module RealtimeStore {
  import opened Types

  /** `updates`: the last delta received per product id; `inserts`: products
      inserted during the session, newest first. */
  datatype RealtimeState = RealtimeState(updates: map<ProductId, ProductPatch>, inserts: seq<Product>)

  /** A change-feed event on the products table. */
  datatype ProductEvent =
    | InsertEvent(record: Product)
    | UpdateEvent(record: Product)
    | DeleteEvent(oldId: ProductId)

  /** Every recorded delta sits under its own product id. */
  ghost predicate KeyedById(updates: map<ProductId, ProductPatch>)
  {
    forall k :: k in updates ==> updates[k].id == k
  }

  /** `addUpdate(p)`: the delta for `p.id` is replaced, every other key kept. */
  function RecordUpdate(s: RealtimeState, p: ProductPatch): (r: RealtimeState)
    ensures r.updates.Keys == s.updates.Keys + {p.id}
    ensures r.updates[p.id] == p
    ensures forall k :: k in s.updates && k != p.id ==> r.updates[k] == s.updates[k]
    ensures r.inserts == s.inserts
    ensures KeyedById(s.updates) ==> KeyedById(r.updates)
  {
    s.(updates := s.updates[p.id := p])
  }

  /** `addInsert(p)`: `p` becomes the head and the previous list the tail. */
  function RecordInsert(s: RealtimeState, p: Product): (r: RealtimeState)
    ensures |r.inserts| == |s.inserts| + 1
    ensures r.inserts[0] == p && r.inserts[1..] == s.inserts
    ensures r.updates == s.updates
  {
    s.(inserts := [p] + s.inserts)
  }

  /** The provider's dispatch: DELETE records a deletion marker, UPDATE records
      the full new record as the delta, INSERT records an insert. */
  function Dispatch(s: RealtimeState, e: ProductEvent): (r: RealtimeState)
    ensures e.InsertEvent? ==> r.updates == s.updates && r.inserts == [e.record] + s.inserts
    ensures !e.InsertEvent? ==> r.inserts == s.inserts
    ensures e.DeleteEvent? ==> e.oldId in r.updates && MarksDeleted(r.updates[e.oldId])
    ensures e.UpdateEvent? ==> e.record.id in r.updates && r.updates[e.record.id] == FullPatch(e.record)
    ensures !e.InsertEvent? ==> KeyedById(s.updates) ==> KeyedById(r.updates)
  {
    match e
    case DeleteEvent(id) => RecordUpdate(s, DeletionMarker(id))
    case UpdateEvent(p) => RecordUpdate(s, FullPatch(p))
    case InsertEvent(p) => RecordInsert(s, p)
  }

  /** The "New Arrival" toast is raised for inserts when `pathname` lies
      outside `/admin` (`!pathname?.startsWith('/admin')`, so also when there
      is no pathname). The handler reads the pathname of the render in which
      the provider subscribed, not the page shown when the event arrives. */
  function AnnouncesArrival(e: ProductEvent, pathname: Option<string>): (r: bool)
    ensures r ==> e.InsertEvent?
    ensures e.InsertEvent? && pathname.None? ==> r
    ensures pathname.Some? && "/admin" <= pathname.value ==> !r
  {
    e.InsertEvent? && !(pathname.Some? && "/admin" <= pathname.value)
  }

  /** Last write wins: a second delta for the same id replaces the first. */
  lemma {:induction false} LastWriteWins(s: RealtimeState, a: ProductPatch, b: ProductPatch)
    requires a.id == b.id
    ensures RecordUpdate(RecordUpdate(s, a), b) == RecordUpdate(s, b)
  {
    assert s.updates[a.id := a][b.id := b] == s.updates[b.id := b];
  }

  /** Inserts are not deduplicated: the same product inserted twice is listed twice. */
  lemma InsertTwiceKeepsBoth(s: RealtimeState, p: Product)
    ensures RecordInsert(RecordInsert(s, p), p).inserts == [p, p] + s.inserts
  {
  }

  /** The state after recording the given inserts in order. */
  function FoldInserts(s: RealtimeState, ps: seq<Product>): (r: RealtimeState)
    ensures r.updates == s.updates
    ensures |r.inserts| == |s.inserts| + |ps|
  {
    if |ps| == 0 then s else RecordInsert(FoldInserts(s, ps[..|ps| - 1]), ps[|ps| - 1])
  }

  /** A DELETE followed by any number of INSERTs still leaves the deletion
      marker as the recorded delta. */
  lemma {:induction false} DeletionSurvivesInserts(s: RealtimeState, id: ProductId, later: seq<Product>)
    ensures var t := Dispatch(s, DeleteEvent(id));
      FoldInserts(t, later).updates[id] == DeletionMarker(id)
  {
    if |later| > 0 {
      DeletionSurvivesInserts(s, id, later[..|later| - 1]);
    }
  }

  class Store {
    var updates: map<ProductId, ProductPatch>
    var inserts: seq<Product>

    /** The store starts with no deltas and no inserts. */
    constructor ()
      ensures updates == map[] && inserts == []
    {
      updates, inserts := map[], [];
    }

    function State(): RealtimeState
      reads this
    {
      RealtimeState(updates, inserts)
    }

    method AddUpdate(p: ProductPatch)
      modifies this
      ensures State() == RecordUpdate(old(State()), p)
    {
      updates := updates[p.id := p];
    }

    method AddInsert(p: Product)
      modifies this
      ensures State() == RecordInsert(old(State()), p)
    {
      inserts := [p] + inserts;
    }
  }

  /** The provider mounted once in the root layout. Its effect subscribes on
      mount and depends only on the client and the store action, so the
      handler keeps the pathname of the first render across client-side
      navigation. */
  class Provider {
    const store: Store
    const subscribedPath: Option<string>

    constructor (s: Store, pathname: Option<string>)
      ensures store == s && subscribedPath == pathname
    {
      store := s;
      subscribedPath := pathname;
    }

    /** The change-feed handler: the store follows the event, and the
        arrival toast depends on the pathname captured at subscription. */
    method Receive(e: ProductEvent) returns (announce: bool)
      modifies store
      ensures store.State() == Dispatch(old(store.State()), e)
      ensures announce == AnnouncesArrival(e, subscribedPath)
    {
      announce := false;
      match e
      case DeleteEvent(id) =>
        store.AddUpdate(DeletionMarker(id));
      case UpdateEvent(p) =>
        store.AddUpdate(FullPatch(p));
      case InsertEvent(p) =>
        announce := !(subscribedPath.Some? && "/admin" <= subscribedPath.value);
        store.AddInsert(p);
    }
  }

  /** Navigation does not move the toast: a provider that subscribed on `/`
      announces an insert even while an `/admin` page is shown, and one that
      subscribed on an `/admin` page announces nothing after the user
      navigates to `/`. */
  lemma AnnouncementIgnoresNavigation(p: Product, adminPath: string)
    requires "/admin" <= adminPath
    ensures AnnouncesArrival(InsertEvent(p), Some("/"))
    ensures !AnnouncesArrival(InsertEvent(p), Some(adminPath))
  {
    assert !("/admin" <= "/") by {
      assert |"/"| < |"/admin"|;
    }
  }
}
