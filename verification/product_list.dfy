/** The product list with realtime arrivals (src/hooks/use-realtime-product-list.ts):
    inserts not already in the server-fetched list, ahead of that list. */
module RealtimeProductList {
  import opened Types
  import opened RealtimeStore

  /** `products.some(p => p.id === id)`. */
  predicate HasId(products: seq<Product>, id: ProductId)
  {
    exists i | 0 <= i < |products| :: products[i].id == id
  }

  ghost predicate DistinctIds(products: seq<Product>)
  {
    forall i, j :: 0 <= i < j < |products| ==> products[i].id != products[j].id
  }

  /** `inserts.filter(ins => !initial.some(p => p.id === ins.id))`. */
  function FreshInserts(inserts: seq<Product>, initial: seq<Product>): (r: seq<Product>)
    ensures |r| <= |inserts|
    ensures forall x :: x in r <==> x in inserts && !HasId(initial, x.id)
  {
    if |inserts| == 0 then []
    else (if HasId(initial, inserts[0].id) then [] else [inserts[0]]) + FreshInserts(inserts[1..], initial)
  }

  /** `[...validInserts, ...initialProducts]`. */
  function MergeInserts(inserts: seq<Product>, initial: seq<Product>): (r: seq<Product>)
    ensures |r| == |FreshInserts(inserts, initial)| + |initial|
    ensures r[|r| - |initial|..] == initial
    ensures forall i :: 0 <= i < |r| - |initial| ==> r[i] in inserts && !HasId(initial, r[i].id)
  {
    var kept := FreshInserts(inserts, initial);
    assert forall i :: 0 <= i < |kept| ==> kept[i] in kept;
    kept + initial
  }

  /** The number of inserts whose id the initial list lacks (duplicates among
      the inserts counted each time). */
  function CountFresh(inserts: seq<Product>, initial: seq<Product>): nat
  {
    if |inserts| == 0 then 0
    else (if HasId(initial, inserts[0].id) then 0 else 1) + CountFresh(inserts[1..], initial)
  }

  /** The output grows by exactly the number of inserts with an unseen id. */
  lemma {:induction false} MergeLength(inserts: seq<Product>, initial: seq<Product>)
    ensures |MergeInserts(inserts, initial)| == |initial| + CountFresh(inserts, initial)
  {
    FreshLength(inserts, initial);
  }

  lemma {:induction false} FreshLength(inserts: seq<Product>, initial: seq<Product>)
    ensures |FreshInserts(inserts, initial)| == CountFresh(inserts, initial)
  {
    if |inserts| > 0 {
      FreshLength(inserts[1..], initial);
    }
  }

  /** Filtering distributes over concatenation, so surviving inserts keep
      their relative order. */
  lemma {:induction false} FreshConcat(a: seq<Product>, b: seq<Product>, initial: seq<Product>)
    ensures FreshInserts(a + b, initial) == FreshInserts(a, initial) + FreshInserts(b, initial)
  {
    if |a| == 0 {
      assert a + b == b;
    } else {
      assert (a + b)[1..] == a[1..] + b;
      FreshConcat(a[1..], b, initial);
    }
  }

  /** With no inserts the output is the initial list. */
  lemma NoInsertsKeepsInitial(initial: seq<Product>)
    ensures MergeInserts([], initial) == initial
  {
  }

  /** When every insert is already in the initial list, the output is the initial list. */
  lemma {:induction false} KnownInsertsHidden(inserts: seq<Product>, initial: seq<Product>)
    requires forall i :: 0 <= i < |inserts| ==> HasId(initial, inserts[i].id)
    ensures MergeInserts(inserts, initial) == initial
  {
    if |inserts| > 0 {
      KnownInsertsHidden(inserts[1..], initial);
    }
  }

  /** Recording an insert in the store prepends it to the list unless the
      initial list already shows a product with that id. */
  lemma MergeAfterInsert(s: RealtimeState, p: Product, initial: seq<Product>)
    ensures MergeInserts(RecordInsert(s, p).inserts, initial)
         == if HasId(initial, p.id) then MergeInserts(s.inserts, initial)
            else [p] + MergeInserts(s.inserts, initial)
  {
    FreshOne(p, initial);
    FreshConcat([p], s.inserts, initial);
    assert [p] + s.inserts == RecordInsert(s, p).inserts;
  }

  lemma FreshOne(p: Product, initial: seq<Product>)
    ensures FreshInserts([p], initial) == if HasId(initial, p.id) then [] else [p]
  {
    assert [p][1..] == [];
    assert FreshInserts([p][1..], initial) == [];
  }

  lemma {:induction false} FreshDistinct(inserts: seq<Product>, initial: seq<Product>)
    requires DistinctIds(inserts)
    ensures DistinctIds(FreshInserts(inserts, initial))
  {
    if |inserts| > 0 {
      var tail := inserts[1..];
      assert DistinctIds(tail) by {
        forall i, j | 0 <= i < j < |tail| ensures tail[i].id != tail[j].id {
          assert tail[i] == inserts[i + 1] && tail[j] == inserts[j + 1];
        }
      }
      FreshDistinct(tail, initial);
      var rest := FreshInserts(tail, initial);
      forall k | 0 <= k < |rest| ensures rest[k].id != inserts[0].id {
        assert rest[k] in rest;
        var m :| 0 <= m < |tail| && tail[m] == rest[k];
        assert inserts[m + 1] == rest[k];
      }
    }
  }

  /** A product is shown once: if neither list repeats an id, the output does not. */
  lemma MergeShowsEachOnce(inserts: seq<Product>, initial: seq<Product>)
    requires DistinctIds(inserts) && DistinctIds(initial)
    ensures DistinctIds(MergeInserts(inserts, initial))
  {
    FreshDistinct(inserts, initial);
    var kept := FreshInserts(inserts, initial);
    var r := MergeInserts(inserts, initial);
    assert r == kept + initial;
    forall i, j | 0 <= i < j < |r| ensures r[i].id != r[j].id {
      if j >= |kept| && i < |kept| {
        assert r[i] in kept;
        assert r[j] == initial[j - |kept|];
      }
    }
  }
}
