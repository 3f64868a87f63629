// The item browser's bookkeeping (itemSearch.js) as functions: the stock an
// item shows once the cart reserves some of it, the per-code registry of
// item objects, the bounded cache of filtered lists and the paging flags.
// Item objects are shared between lists, so they live in a heap of
// references (`map<nat, Item>`); the store object is in ItemSearch.

module ItemSearchModel {
  import opened Common

  /** The fields of an item object this store reads and writes; `code` is
      "" when `item_code` is missing. */
  datatype Item = Item(code: string, actualQty: JsNum, stockQty: JsNum, originalStock: JsNum, warehouse: Option<string>)

  /** One realtime stock update. */
  datatype StockUpdate = StockUpdate(code: string, actualQty: JsNum, stockQty: JsNum, warehouse: Option<string>)

  /** One cart line as `setCartItems` reads it; `quantity` is
      `Number(quantity)`, `None` for NaN. */
  datatype CartEntry = CartEntry(code: string, quantity: Option<real>)

  // ---------------------------------------------------------------------
  // One item's stock
  // ---------------------------------------------------------------------

  /** The item after `ensureOriginalStock`: an absent `original_stock` is
      fixed from `actual_qty`, else `stock_qty || 0`. */
  function WithOriginal(it: Item): (r: Item)
    ensures r.originalStock != Undef
    ensures it.originalStock != Undef ==> r == it
    ensures r == it.(originalStock := r.originalStock)
  {
    if it.originalStock != Undef then it
    else if it.actualQty != Undef then it.(originalStock := it.actualQty)
    else it.(originalStock := Val(JsOr(it.stockQty, 0.0)))
  }

  /** What `ensureOriginalStock` returns. */
  function OriginalStock(it: Item): (v: real)
    ensures it.originalStock.Val? ==> v == it.originalStock.v
    ensures it.originalStock == Null ==> v == 0.0
    ensures it.originalStock == Undef && it.actualQty.Val? ==> v == it.actualQty.v
    ensures it.originalStock == Undef && it.actualQty == Null ==> v == 0.0
    ensures it.originalStock == Undef && it.actualQty == Undef ==> v == JsOr(it.stockQty, 0.0)
  {
    Nullish(WithOriginal(it).originalStock, 0.0)
  }

  /** `updateReservedStock` on one item: both quantities show the original
      stock less the reservation, never below zero. */
  function Reserved(it: Item, reservation: real): (r: Item)
    ensures r.code == it.code && r.warehouse == it.warehouse
    ensures r.originalStock == WithOriginal(it).originalStock
    ensures r.actualQty == r.stockQty == Val(MaxReal(OriginalStock(it) - reservation, 0.0))
  {
    var u := MaxReal(OriginalStock(it) - reservation, 0.0);
    WithOriginal(it).(actualQty := Val(u), stockQty := Val(u))
  }

  /** The stock a stock update is measured from: `actual_qty ?? stock_qty`,
      else the item's original stock. */
  function Baseline(it: Item, u: StockUpdate): real
  {
    var b := if u.actualQty.Val? then u.actualQty else u.stockQty;
    if b.Val? then b.v else OriginalStock(it)
  }

  /** `applyStockUpdates` on one item: the update's quantity, or the
      original stock when it has none, becomes the new original stock, and
      both quantities show it less the cart quantity as it is (a negative
      one included), never below zero. */
  function Restocked(it: Item, u: StockUpdate, reserved: real): (r: Item)
    ensures r.code == it.code
    ensures r.originalStock == Val(Baseline(it, u))
    ensures r.actualQty == r.stockQty == Val(MaxReal(Baseline(it, u) - reserved, 0.0))
    ensures r.warehouse == (if Truthy(u.warehouse) then u.warehouse else it.warehouse)
  {
    var base := Baseline(it, u);
    var available := MaxReal(base - reserved, 0.0);
    WithOriginal(it).(originalStock := Val(base), actualQty := Val(available), stockQty := Val(available),
                      warehouse := if Truthy(u.warehouse) then u.warehouse else it.warehouse)
  }

  /** `applyStockUpdates` on one item with the reservation clamped at zero
      the way `updateReservedStock` clamps it. */
  function RestockedClamped(it: Item, u: StockUpdate, reserved: real): Item
  {
    Restocked(it, u, MaxReal(reserved, 0.0))
  }

  // ---------------------------------------------------------------------
  // The heap of item objects and the registry
  // ---------------------------------------------------------------------

  /** The registry of `registerItems`: every registered reference sits in
      the bucket of its own code, every bucket holds only registered
      references of its code, and no bucket is empty. */
  predicate Indexes(heap: map<nat, Item>, registry: map<string, set<nat>>, reg: set<nat>)
  {
    (forall r :: r in reg ==> r in heap && heap[r].code != "" && heap[r].code in registry && r in registry[heap[r].code]) &&
    (forall c :: c in registry ==> registry[c] != {}) &&
    (forall c, r :: c in registry && r in registry[c] ==> r in reg && r in heap && heap[r].code == c)
  }

  /** The registered references of one code, what the registry's bucket
      holds. */
  function Bucket(heap: map<nat, Item>, reg: set<nat>, code: string): set<nat>
  {
    set r | r in reg && r in heap && heap[r].code == code
  }

  /** Same references, same codes. */
  predicate SameCodes(a: map<nat, Item>, b: map<nat, Item>)
  {
    a.Keys == b.Keys && forall r :: r in a ==> a[r].code == b[r].code
  }

  /** The heap after new item objects are created at `base`, `base + 1`, ... */
  function Allocated(heap: map<nat, Item>, base: nat, items: seq<Item>): map<nat, Item>
  {
    if items == [] then heap
    else Allocated(heap, base, items[..|items| - 1])[base + |items| - 1 := items[|items| - 1]]
  }

  /** The references `base`, `base + 1`, ... of `n` new objects. */
  function Fresh(base: nat, n: nat): (refs: seq<nat>)
    ensures |refs| == n && forall i :: 0 <= i < n ==> refs[i] == base + i
  {
    seq(n, i => base + i)
  }

  /** The registry stays valid while codes and registered references stay. */
  lemma IndexesKept(h1: map<nat, Item>, h2: map<nat, Item>, registry: map<string, set<nat>>, reg: set<nat>)
    requires Indexes(h1, registry, reg)
    requires forall r :: r in h1 ==> r in h2 && h2[r].code == h1[r].code
    ensures Indexes(h2, registry, reg)
  {
  }

  /** The registry after one object leaves the bucket of `code`; an emptied
      bucket is deleted. */
  function Unregistered(registry: map<string, set<nat>>, code: string, r: nat): map<string, set<nat>>
    requires code in registry
  {
    var b := registry[code] - {r};
    if b == {} then registry - {code} else registry[code := b]
  }

  /** `next` is `registry` with the objects of `gone` taken out of every
      bucket and the buckets left empty dropped. */
  ghost predicate Without(next: map<string, set<nat>>, registry: map<string, set<nat>>, gone: set<nat>)
  {
    forall c :: (c in next <==> c in registry && registry[c] - gone != {}) &&
                (c in next ==> next[c] == registry[c] - gone)
  }

  /** One turn of `removeRegisteredItems`: the object's code still has a
      bucket, and taking the object out keeps the registry equal to the
      original one with the finished objects taken out. */
  lemma UnregisterStep(heap: map<nat, Item>, r0: map<string, set<nat>>, registry: map<string, set<nat>>,
                       reg: set<nat>, done: set<nat>, r: nat)
    requires Indexes(heap, r0, reg) && Without(registry, r0, done) && r in reg && r !in done
    ensures heap[r].code in registry && Without(Unregistered(registry, heap[r].code, r), r0, done + {r})
  {
    var code := heap[r].code;
    assert r in r0[code] - done;
    var next := Unregistered(registry, code, r);
    forall c | c in r0 && c != code
      ensures r0[c] - (done + {r}) == r0[c] - done
    {
      assert r !in r0[c];
    }
  }

  /** Taking a set of objects out of a valid registry leaves a registry that
      is valid for the objects kept. */
  lemma WithoutIndexes(heap: map<nat, Item>, r0: map<string, set<nat>>, next: map<string, set<nat>>,
                       kept: set<nat>, gone: set<nat>)
    requires Indexes(heap, r0, kept + gone) && kept !! gone && Without(next, r0, gone)
    ensures Indexes(heap, next, kept)
  {
    forall r | r in kept
      ensures heap[r].code in next && r in next[heap[r].code]
    {
      assert r in r0[heap[r].code] - gone;
    }
  }

  lemma UnionAssoc<T>(a: set<T>, b: set<T>, c: set<T>)
    ensures a + b + c == a + (b + c)
  {
  }

  lemma UnionSwap<T>(a: set<T>, b: set<T>, c: set<T>)
    ensures a + c + b == a + b + c
  {
  }

  /** Moving one element from the pending part of a set to the finished
      part, as each turn over a JavaScript `Set` does. */
  lemma MoveOne<T>(rest: set<T>, done: set<T>, whole: set<T>, x: T)
    requires rest + done == whole && rest !! done && x in rest
    ensures (rest - {x}) + (done + {x}) == whole && (rest - {x}) !! (done + {x})
  {
  }

  /** `cartReservedLookup.get(code) || 0`. */
  function LookupQty(lookup: map<string, real>, code: string): real
  {
    if code in lookup then Or(lookup[code], 0.0) else 0.0
  }

  /** `updateReservedStock` for every code of `codes`, each with its
      quantity in `lookup`. */
  function ReserveCodes(heap: map<nat, Item>, reg: set<nat>, codes: set<string>, lookup: map<string, real>): (h: map<nat, Item>)
    ensures SameCodes(h, heap)
  {
    map r | r in heap :: if r in reg && heap[r].code in codes
                         then Reserved(heap[r], MaxReal(LookupQty(lookup, heap[r].code), 0.0)) else heap[r]
  }

  /** The items of `refs` reserved, the others untouched. */
  function ReserveSome(heap: map<nat, Item>, refs: set<nat>, reservation: real): (h: map<nat, Item>)
    ensures SameCodes(h, heap)
  {
    map r | r in heap :: if r in refs then Reserved(heap[r], reservation) else heap[r]
  }

  lemma ReserveSomeStep(heap: map<nat, Item>, done: set<nat>, r: nat, reservation: real)
    requires r in heap && r !in done
    ensures ReserveSome(heap, done + {r}, reservation) == ReserveSome(heap, done, reservation)[r := Reserved(heap[r], reservation)]
  {
  }

  /** Reserving a whole bucket is `updateReservedStock` of its code. */
  lemma ReserveSomeAll(heap: map<nat, Item>, reg: set<nat>, code: string, q: real)
    ensures ReserveSome(heap, Bucket(heap, reg, code), MaxReal(q, 0.0)) == ReserveOne(heap, reg, code, q)
  {
  }

  /** `updateReservedStock(code, q)`. */
  function ReserveOne(heap: map<nat, Item>, reg: set<nat>, code: string, q: real): (h: map<nat, Item>)
    ensures SameCodes(h, heap)
  {
    map r | r in heap :: if r in reg && heap[r].code == code then Reserved(heap[r], MaxReal(q, 0.0)) else heap[r]
  }

  /** `ensureOriginalStock` on every coded item of `refs`, as
      `registerItems` does. */
  function FixOriginals(heap: map<nat, Item>, refs: set<nat>): (h: map<nat, Item>)
    ensures SameCodes(h, heap)
  {
    map r | r in heap :: if r in refs && heap[r].code != "" then WithOriginal(heap[r]) else heap[r]
  }

  /** The registry after `registerItems` puts one object in the bucket of
      `code`, creating the bucket when there is none. */
  function Registered(registry: map<string, set<nat>>, code: string, r: nat): (next: map<string, set<nat>>)
    ensures next.Keys == registry.Keys + {code} && next[code] == (if code in registry then registry[code] else {}) + {r}
    ensures forall c :: c in registry && c != code ==> next[c] == registry[c]
  {
    registry[code := (if code in registry then registry[code] else {}) + {r}]
  }

  /** One turn of `registerItems`: a coded object joins the registry, which
      stays valid with the object registered. */
  lemma RegisterStep(heap: map<nat, Item>, registry: map<string, set<nat>>, reg: set<nat>, r: nat)
    requires Indexes(heap, registry, reg) && r in heap && heap[r].code != ""
    ensures Indexes(heap, Registered(registry, heap[r].code, r), reg + {r})
  {
  }

  /** The coded objects among `refs`, the ones `registerItems` registers. */
  function Coded(heap: map<nat, Item>, refs: seq<nat>): (s: set<nat>)
    ensures forall r :: r in s <==> r in refs && r in heap && heap[r].code != ""
  {
    set r | r in refs && r in heap && heap[r].code != ""
  }

  /** The references a list holds. */
  function Elems(refs: seq<nat>): set<nat>
  {
    set r | r in refs
  }

  /** The prefix sets of one more element of a list. */
  lemma RegisterTurn(heap: map<nat, Item>, refs: seq<nat>, i: nat)
    requires i < |refs|
    ensures Elems(refs[..i + 1]) == Elems(refs[..i]) + {refs[i]}
    ensures Coded(heap, refs[..i + 1]) == Coded(heap, refs[..i]) + (if refs[i] in heap && heap[refs[i]].code != "" then {refs[i]} else {})
  {
    assert refs[..i + 1] == refs[..i] + [refs[i]];
  }

  /** `ensureOriginalStock` on one object, as `FixOriginals` states it. */
  lemma FixOne(heap: map<nat, Item>, r: nat)
    requires r in heap
    ensures FixOriginals(heap, {r}) == if heap[r].code != "" then heap[r := WithOriginal(heap[r])] else heap
  {
  }

  /** New objects leave the old ones as they were. */
  lemma {:induction false} AllocatedKeeps(heap: map<nat, Item>, base: nat, items: seq<Item>)
    requires forall r :: r in heap ==> r < base
    ensures forall r :: r in heap ==> r in Allocated(heap, base, items) && Allocated(heap, base, items)[r] == heap[r]
    ensures forall r :: r in Allocated(heap, base, items) ==> r < base + |items|
    ensures forall i :: 0 <= i < |items| ==>
      Fresh(base, |items|)[i] in Allocated(heap, base, items) && Allocated(heap, base, items)[Fresh(base, |items|)[i]] == items[i]
  {
    if items != [] {
      var p := items[..|items| - 1];
      AllocatedKeeps(heap, base, p);
      var h := Allocated(heap, base, items);
      forall i | 0 <= i < |items|
        ensures Fresh(base, |items|)[i] in h && h[Fresh(base, |items|)[i]] == items[i]
      {
        if i < |p| {
          assert p[i] == items[i] && Fresh(base, |p|)[i] == Fresh(base, |items|)[i];
        }
      }
    }
  }

  /** Fixing the original stock of one more object. */
  lemma FixOriginalsStep(h0: map<nat, Item>, refs: set<nat>, r: nat)
    requires r in h0
    ensures FixOriginals(FixOriginals(h0, refs), {r}) == FixOriginals(h0, refs + {r})
  {
    var a := FixOriginals(FixOriginals(h0, refs), {r});
    var b := FixOriginals(h0, refs + {r});
    forall x | x in h0
      ensures a[x] == b[x]
    {
      if x == r && r in refs && h0[r].code != "" {
        OriginalStockFixed(h0[r], h0[r].actualQty, h0[r].stockQty);
      }
    }
  }

  /** The codes of `items` the cart reserves, the ones `appendAllItems` and
      `setSearchResults` recompute. */
  function Impacted(items: seq<Item>, lookup: map<string, real>): (codes: set<string>)
    ensures forall c :: c in codes <==> c != "" && c in lookup && exists i :: 0 <= i < |items| && items[i].code == c
  {
    set i | 0 <= i < |items| && items[i].code != "" && items[i].code in lookup :: items[i].code
  }

  /** `cartReservedLookup` as `setCartItems` builds it: `Number(quantity)
      || 0` per coded line, a later line replacing an earlier one. */
  function CartLookup(items: seq<CartEntry>): map<string, real>
  {
    if items == [] then map[]
    else
      var last := items[|items| - 1];
      var m := CartLookup(items[..|items| - 1]);
      if last.code != "" then m[last.code := OrNum(last.quantity, 0.0)] else m
  }

  /** The index of the last coded line for `code`. */
  function LastEntry(items: seq<CartEntry>, code: string): (r: Option<nat>)
    ensures r.Some? ==> r.value < |items| && items[r.value].code == code
    ensures r.Some? ==> forall k :: r.value < k < |items| ==> items[k].code != code
    ensures r.None? <==> forall k :: 0 <= k < |items| ==> items[k].code != code
  {
    if items == [] then None
    else if items[|items| - 1].code == code then Some(|items| - 1)
    else LastEntry(items[..|items| - 1], code)
  }

  /** `applyStockUpdates` on every registered item of the update's code. */
  function StocksApplied(heap: map<nat, Item>, reg: set<nat>, u: StockUpdate, reserved: real): (h: map<nat, Item>)
    ensures SameCodes(h, heap)
  {
    map r | r in heap :: if r in reg && heap[r].code == u.code then Restocked(heap[r], u, reserved) else heap[r]
  }

  /** The items of `refs` restocked by `u`, the others untouched. */
  function RestockSome(heap: map<nat, Item>, refs: set<nat>, u: StockUpdate, reserved: real): (h: map<nat, Item>)
    ensures SameCodes(h, heap)
  {
    map r | r in heap :: if r in refs then Restocked(heap[r], u, reserved) else heap[r]
  }

  lemma RestockSomeStep(heap: map<nat, Item>, done: set<nat>, r: nat, u: StockUpdate, reserved: real)
    requires r in heap && r !in done
    ensures RestockSome(heap, done + {r}, u, reserved) == RestockSome(heap, done, u, reserved)[r := Restocked(heap[r], u, reserved)]
  {
  }

  /** Restocking a whole bucket is the update of its code. */
  lemma RestockSomeAll(heap: map<nat, Item>, reg: set<nat>, u: StockUpdate, reserved: real)
    ensures RestockSome(heap, Bucket(heap, reg, u.code), u, reserved) == StocksApplied(heap, reg, u, reserved)
  {
  }

  /** The lookup `setCartItems` builds from what it is given; anything but
      a list gives an empty lookup. */
  function CartOf(items: Option<seq<CartEntry>>): map<string, real>
  {
    if items.Some? then CartLookup(items.value) else map[]
  }

  /** An update whose code has no registered item changes nothing. */
  lemma StocksAppliedNone(heap: map<nat, Item>, reg: set<nat>, u: StockUpdate, reserved: real)
    requires Bucket(heap, reg, u.code) == {}
    ensures StocksApplied(heap, reg, u, reserved) == heap
  {
    assert forall r :: r in heap && r in reg && heap[r].code == u.code ==> r in Bucket(heap, reg, u.code);
  }

  /** The whole `applyStockUpdates` loop; updates without a code are
      skipped. */
  function ApplyUpdates(heap: map<nat, Item>, reg: set<nat>, lookup: map<string, real>, updates: seq<StockUpdate>): (h: map<nat, Item>)
    ensures SameCodes(h, heap)
  {
    if updates == [] then heap
    else
      var h := ApplyUpdates(heap, reg, lookup, updates[..|updates| - 1]);
      var u := updates[|updates| - 1];
      if u.code == "" then h else StocksApplied(h, reg, u, LookupQty(lookup, u.code))
  }

  /** One more update of the `applyStockUpdates` loop. */
  lemma ApplyUpdatesStep(heap: map<nat, Item>, reg: set<nat>, lookup: map<string, real>, us: seq<StockUpdate>, i: nat)
    requires i < |us|
    ensures var h := ApplyUpdates(heap, reg, lookup, us[..i]);
      ApplyUpdates(heap, reg, lookup, us[..i + 1]) == if us[i].code == "" then h else StocksApplied(h, reg, us[i], LookupQty(lookup, us[i].code))
  {
    assert us[..i + 1][..i] == us[..i];
  }

  // ---------------------------------------------------------------------
  // The bounded cache of filtered lists
  // ---------------------------------------------------------------------

  const MaxCacheEntries: nat := 50

  /** `setCache`: at the limit the oldest key is dropped first, then the key
      is set (an existing key keeps its place). */
  function SetCache<V>(c: JsMap<V>, key: string, value: V): JsMap<V>
  {
    var d := if |c.keys| >= MaxCacheEntries && |c.keys| > 0 then JsMap(c.keys[1..], c.vals - {c.keys[0]}) else c;
    MapSet(d, key, value)
  }

  // ---------------------------------------------------------------------
  // Paging
  // ---------------------------------------------------------------------

  const ItemsPerPage: nat := 50

  datatype Paging = Paging(offset: nat, hasMore: bool, loadingMore: bool, totalLoaded: nat)

  /** A string `trim` would leave empty. */
  predicate Blank(s: string)
  {
    forall i :: 0 <= i < |s| ==> s[i] in {' ', '\t', '\n', '\r', '\U{000B}', '\U{000C}'}
  }

  /** The early returns of `loadMoreItems`. */
  predicate LoadMoreSkipped(p: Paging, profile: Option<string>, searchTerm: string)
  {
    p.loadingMore || !p.hasMore || !Truthy(profile) || !Blank(searchTerm)
  }

  /** `loadMoreItems`; `page` is the number of rows the server returned,
      `None` when the call threw, and `cacheThrew` says whether writing the
      page to the offline cache threw. */
  function LoadMorePaging(p: Paging, profile: Option<string>, searchTerm: string, page: Option<nat>, cacheThrew: bool): Paging
  {
    if LoadMoreSkipped(p, profile, searchTerm) then p else PageResult(p, page, cacheThrew)
  }

  /** The counters once a page request has finished. */
  function PageResult(p: Paging, page: Option<nat>, cacheThrew: bool): Paging
  {
    match page
      case None => p.(hasMore := false, loadingMore := false)
      case Some(n) =>
        if n == 0 then p.(hasMore := false, loadingMore := false)
        else p.(offset := p.offset + n, totalLoaded := p.totalLoaded + n,
                hasMore := n == ItemsPerPage && !cacheThrew, loadingMore := false)
  }

  // ---------------------------------------------------------------------
  // Properties
  // ---------------------------------------------------------------------

  /** `ensureOriginalStock` fixes the value on its first call: later calls
      return it again, whatever `actual_qty` and `stock_qty` became. */
  lemma OriginalStockFixed(it: Item, actualQty: JsNum, stockQty: JsNum)
    ensures WithOriginal(WithOriginal(it)) == WithOriginal(it)
    ensures OriginalStock(WithOriginal(it).(actualQty := actualQty, stockQty := stockQty)) == OriginalStock(it)
  {
  }

  /** Reserving again from the same original gives the same item, however
      often the reservation is re-applied. */
  lemma ReservedAgain(it: Item, a: real, b: real)
    ensures Reserved(Reserved(it, a), b) == Reserved(it, b)
  {
  }

  /** Replacing a list by the empty one allocates nothing, fixes no
      original stock and recomputes no reservation. */
  lemma NothingToReserve(heap: map<nat, Item>, base: nat, reg: set<nat>, lookup: map<string, real>)
    ensures ReserveCodes(FixOriginals(Allocated(heap, base, []), Elems(Fresh(base, 0))), reg, Impacted([], lookup), lookup) == heap
  {
    assert Impacted([], lookup) == {};
    assert Fresh(base, 0) == [];
  }

  /** The registry is determined by the registered references: two
      registries that both index them are equal. */
  lemma IndexesUnique(heap: map<nat, Item>, r1: map<string, set<nat>>, r2: map<string, set<nat>>, reg: set<nat>)
    requires Indexes(heap, r1, reg) && Indexes(heap, r2, reg)
    ensures r1 == r2
  {
    forall c | c in r1
      ensures c in r2 && r1[c] == r2[c]
    {
      var r :| r in r1[c];
      assert r in reg && heap[r].code == c;
      IndexedBucket(heap, r1, reg, c);
      IndexedBucket(heap, r2, reg, c);
    }
    forall c | c in r2
      ensures c in r1
    {
      var r :| r in r2[c];
      assert r in reg && heap[r].code == c;
    }
  }

  /** A registry bucket is the set of registered references of its code, and
      a code without a bucket has none. */
  lemma IndexedBucket(heap: map<nat, Item>, registry: map<string, set<nat>>, reg: set<nat>, code: string)
    requires Indexes(heap, registry, reg)
    ensures code in registry ==> registry[code] == Bucket(heap, reg, code)
    ensures code !in registry ==> Bucket(heap, reg, code) == {}
  {
  }

  /** `updateReservedStock`: every registered item of the code shows its
      original stock less the (non-negative) reservation; every other item is
      untouched, so an unregistered code changes nothing. */
  lemma ReserveOneEffect(heap: map<nat, Item>, reg: set<nat>, code: string, q: real)
    ensures forall r :: r in reg && r in heap && heap[r].code == code ==>
      ReserveOne(heap, reg, code, q)[r].actualQty == Val(MaxReal(OriginalStock(heap[r]) - MaxReal(q, 0.0), 0.0)) &&
      ReserveOne(heap, reg, code, q)[r].stockQty == ReserveOne(heap, reg, code, q)[r].actualQty
    ensures forall r :: r in heap && !(r in reg && heap[r].code == code) ==> ReserveOne(heap, reg, code, q)[r] == heap[r]
    ensures Bucket(heap, reg, code) == {} ==> ReserveOne(heap, reg, code, q) == heap
  {
    assert forall r :: r in heap && r in reg && heap[r].code == code ==> r in Bucket(heap, reg, code);
  }

  /** One more code of a batch of `updateReservedStock` calls. */
  lemma ReserveCodesStep(heap: map<nat, Item>, reg: set<nat>, done: set<string>, code: string, lookup: map<string, real>)
    requires code !in done
    ensures ReserveOne(ReserveCodes(heap, reg, done, lookup), reg, code, LookupQty(lookup, code))
            == ReserveCodes(heap, reg, done + {code}, lookup)
  {
    var a := ReserveOne(ReserveCodes(heap, reg, done, lookup), reg, code, LookupQty(lookup, code));
    var b := ReserveCodes(heap, reg, done + {code}, lookup);
    forall r | r in heap
      ensures a[r] == b[r]
    {
    }
  }

  /** A new object of a loaded page, once registered and once the cart's
      reservations are applied again, shows the page's stock less its code's
      reservation. */
  lemma LoadedReserved(heap: map<nat, Item>, base: nat, items: seq<Item>, reg: set<nat>, codes: set<string>,
                       lookup: map<string, real>, i: nat)
    requires forall r :: r in heap ==> r < base
    requires i < |items| && Fresh(base, |items|)[i] in reg && items[i].code in codes
    ensures var h := ReserveCodes(FixOriginals(Allocated(heap, base, items), Elems(Fresh(base, |items|))), reg, codes, lookup);
      Fresh(base, |items|)[i] in h &&
      h[Fresh(base, |items|)[i]] == Reserved(items[i], MaxReal(LookupQty(lookup, items[i].code), 0.0))
  {
    AllocatedKeeps(heap, base, items);
    OriginalStockFixed(items[i], items[i].actualQty, items[i].stockQty);
  }

  /** `setCartItems`: a code that left the cart gets its whole original
      stock back on every registered item. */
  lemma LeftCartRestored(heap: map<nat, Item>, reg: set<nat>, before: map<string, real>, items: seq<CartEntry>, r: nat)
    requires r in reg && r in heap && heap[r].code in before && LastEntry(items, heap[r].code).None?
    ensures var h := ReserveCodes(heap, reg, before.Keys + CartLookup(items).Keys, CartLookup(items));
      h[r].actualQty == h[r].stockQty == Val(MaxReal(OriginalStock(heap[r]), 0.0))
  {
    CartLookupLast(items, heap[r].code);
  }

  /** The lookup holds, per coded line, the quantity of the last line with
      that code. */
  lemma {:induction false} CartLookupLast(items: seq<CartEntry>, code: string)
    ensures var k := LastEntry(items, code);
      (code in CartLookup(items) <==> code != "" && k.Some?) &&
      (code in CartLookup(items) ==> CartLookup(items)[code] == OrNum(items[k.value].quantity, 0.0))
  {
    if items != [] {
      CartLookupLast(items[..|items| - 1], code);
    }
  }

  /** What a clamped stock update shows on a registered item: the baseline
      less the reservation, never below zero and never above the baseline. */
  lemma RestockedShown(it: Item, u: StockUpdate, reserved: real)
    ensures var r := RestockedClamped(it, u, reserved);
      r.actualQty.Val? && 0.0 <= r.actualQty.v <= MaxReal(Baseline(it, u), 0.0) &&
      (Baseline(it, u) - MaxReal(reserved, 0.0) >= 0.0 ==> r.actualQty.v == Baseline(it, u) - MaxReal(reserved, 0.0))
  {
  }

  /** The update as written and the clamped one agree on a non-negative
      cart quantity; on a negative one that leaves stock to show, the one
      as written shows more. */
  lemma RestockedAgrees(it: Item, u: StockUpdate, reserved: real)
    ensures reserved >= 0.0 ==> Restocked(it, u, reserved) == RestockedClamped(it, u, reserved)
    ensures reserved < 0.0 && Baseline(it, u) - reserved > 0.0 ==>
      Restocked(it, u, reserved).actualQty.v > RestockedClamped(it, u, reserved).actualQty.v
  {
  }

  /** As written, a negative cart quantity raises the shown stock above the
      update's own quantity, which the clamped update never does. */
  lemma RestockedAsWrittenInflates(it: Item, u: StockUpdate, reserved: real)
    requires reserved < 0.0 && u.actualQty.Val? && u.actualQty.v >= 0.0
    ensures Restocked(it, u, reserved).actualQty.v > u.actualQty.v
    ensures RestockedClamped(it, u, reserved).actualQty.v == u.actualQty.v
  {
  }

  /** A stock update reaches exactly the registered items of its code. */
  lemma StocksAppliedEffect(heap: map<nat, Item>, reg: set<nat>, u: StockUpdate, reserved: real)
    ensures forall r :: r in heap && !(r in reg && heap[r].code == u.code) ==> StocksApplied(heap, reg, u, reserved)[r] == heap[r]
    ensures forall r :: r in reg && r in heap && heap[r].code == u.code ==>
      StocksApplied(heap, reg, u, reserved)[r] == Restocked(heap[r], u, reserved)
  {
  }

  /** The cache never grows past its limit, keeps its index consistent, holds
      the new value, and at the limit drops the oldest key. */
  lemma SetCacheFacts<V>(c: JsMap<V>, key: string, value: V)
    requires JsMapValid(c) && |c.keys| <= MaxCacheEntries
    ensures var d := SetCache(c, key, value);
      JsMapValid(d) && |d.keys| <= MaxCacheEntries && key in d.vals && d.vals[key] == value &&
      (|c.keys| == MaxCacheEntries && c.keys[0] != key ==> c.keys[0] !in d.vals) &&
      (forall k :: k in c.vals && k != key && (|c.keys| < MaxCacheEntries || k != c.keys[0]) ==>
         k in d.vals && d.vals[k] == c.vals[k])
  {
    var d := if |c.keys| >= MaxCacheEntries && |c.keys| > 0 then JsMap(c.keys[1..], c.vals - {c.keys[0]}) else c;
    assert JsMapValid(d) by {
      if |c.keys| >= MaxCacheEntries && |c.keys| > 0 {
        forall k
          ensures k in d.vals <==> k in d.keys
        {
          if k in c.keys[1..] {
            var j :| 0 <= j < |c.keys[1..]| && c.keys[1..][j] == k;
            assert c.keys[j + 1] == k;
          }
          if k in c.vals && k != c.keys[0] {
            var j :| 0 <= j < |c.keys| && c.keys[j] == k;
            assert c.keys[1..][j - 1] == k;
          }
        }
      }
    }
    MapSetFacts(d, key, value);
  }

  /** `loadMoreItems`: after an early return nothing changes; otherwise the
      offset moves by the rows received, `hasMore` stays set only after a
      full page, and `loadingMore` is cleared. */
  lemma LoadMoreFacts(p: Paging, profile: Option<string>, searchTerm: string, page: Option<nat>, cacheThrew: bool)
    ensures var q := LoadMorePaging(p, profile, searchTerm, page, cacheThrew);
      (LoadMoreSkipped(p, profile, searchTerm) ==> q == p) &&
      (!LoadMoreSkipped(p, profile, searchTerm) ==>
        !q.loadingMore &&
        q.offset == p.offset + (if page.Some? then page.value else 0) &&
        q.totalLoaded == p.totalLoaded + (if page.Some? then page.value else 0) &&
        (q.hasMore <==> page.Some? && page.value == ItemsPerPage && !cacheThrew))
  {
  }
}
