// The item-search store object (itemSearch.js): the item lists, the
// per-code registry of item objects, the cart reservation lookup, the cache
// of filtered lists and the paging counters as fields, each action proved
// against the functions of ItemSearchModel. Server pages are parameters.

module ItemSearch {
  import opened Common
  import opened ItemSearchModel

  class ItemSearchStore {
    var heap: map<nat, Item>
    var nextRef: nat
    var allItems: seq<nat>
    var searchResults: seq<nat>
    var registry: map<string, set<nat>>
    var registeredAll: set<nat>
    var registeredSearch: set<nat>
    var cartItems: Option<seq<CartEntry>>
    var cartReserved: map<string, real>
    var baseCache: JsMap<seq<nat>>
    var currentOffset: nat
    var hasMore: bool
    var loadingMore: bool
    var totalItemsLoaded: nat
    var posProfile: Option<string>
    var searchTerm: string

    /** Every registered item object, from either list. */
    function Reg(): set<nat>
      reads this`registeredAll, this`registeredSearch
    {
      registeredAll + registeredSearch
    }

    function Paging(): ItemSearchModel.Paging
      reads this`currentOffset, this`hasMore, this`loadingMore, this`totalItemsLoaded
    {
      ItemSearchModel.Paging(currentOffset, hasMore, loadingMore, totalItemsLoaded)
    }

    ghost predicate Valid()
      reads this`heap, this`nextRef, this`allItems, this`searchResults, this`registry
      reads this`registeredAll, this`registeredSearch, this`baseCache
    {
      Indexes(heap, registry, Reg()) && registeredAll !! registeredSearch &&
      (forall r :: r in heap ==> r < nextRef) &&
      (forall i :: 0 <= i < |allItems| ==> allItems[i] in heap) &&
      (forall i :: 0 <= i < |searchResults| ==> searchResults[i] in heap) &&
      JsMapValid(baseCache) && |baseCache.keys| <= MaxCacheEntries
    }

    constructor()
      ensures Valid() && heap == map[] && allItems == [] && searchResults == [] && cartReserved == map[]
      ensures Paging() == ItemSearchModel.Paging(0, true, false, 0) && posProfile == None && searchTerm == ""
    {
      heap := map[];
      nextRef := 0;
      allItems := [];
      searchResults := [];
      registry := map[];
      registeredAll := {};
      registeredSearch := {};
      cartItems := None;
      cartReserved := map[];
      baseCache := JsMap([], map[]);
      currentOffset := 0;
      hasMore := true;
      loadingMore := false;
      totalItemsLoaded := 0;
      posProfile := None;
      searchTerm := "";
    }

    /** `setCache` on the filtered-list cache. */
    method SetCache(key: string, list: seq<nat>)
      modifies this`baseCache
      ensures baseCache == ItemSearchModel.SetCache(old(baseCache), key, list)
    {
      if |baseCache.keys| >= MaxCacheEntries && |baseCache.keys| > 0 {
        var first := baseCache.keys[0];
        baseCache := JsMap(baseCache.keys[1..], baseCache.vals - {first});
      }
      baseCache := MapSet(baseCache, key, list);
    }

    method ClearBaseCache()
      modifies this`baseCache
      ensures baseCache == JsMap([], map[])
    {
      baseCache := JsMap([], map[]);
    }

    /** `ensureOriginalStock` on one item object. */
    method EnsureOriginalStock(r: nat) returns (v: real)
      requires r in heap
      modifies this`heap
      ensures heap == old(heap)[r := WithOriginal(old(heap)[r])] && v == OriginalStock(old(heap)[r])
    {
      var it := heap[r];
      if it.originalStock == Undef {
        var fallback := if it.actualQty != Undef then it.actualQty else Val(JsOr(it.stockQty, 0.0));
        heap := heap[r := it.(originalStock := fallback)];
      } else {
        heap := heap[r := it];
      }
      v := Nullish(heap[r].originalStock, 0.0);
    }

    /** `updateReservedStock` on one item object. */
    method ReserveItem(r: nat, reservation: real)
      requires r in heap
      modifies this`heap
      ensures heap == old(heap)[r := Reserved(old(heap)[r], reservation)]
    {
      var original := EnsureOriginalStock(r);
      var updated := MaxReal(original - reservation, 0.0);
      heap := heap[r := heap[r].(actualQty := Val(updated), stockQty := Val(updated))];
    }

    /** `updateReservedStock`. */
    method UpdateReservedStock(code: string, q: real)
      requires Valid()
      modifies this`heap
      ensures Valid() && heap == ReserveOne(old(heap), Reg(), code, q)
    {
      if code !in registry {
        IndexedBucket(heap, registry, Reg(), code);
        ReserveOneEffect(heap, Reg(), code, q);
        return;
      }
      ghost var h0 := heap;
      IndexedBucket(h0, registry, Reg(), code);
      ReserveBucket(registry[code], MaxReal(q, 0.0));
      ReserveSomeAll(h0, Reg(), code, q);
      IndexesKept(h0, heap, registry, Reg());
    }

    /** The `forEach` of `updateReservedStock` over one code's bucket. */
    method ReserveBucket(bucket: set<nat>, reservation: real)
      requires forall r :: r in bucket ==> r in heap
      modifies this`heap
      ensures heap == ReserveSome(old(heap), bucket, reservation)
    {
      var rest := bucket;
      ghost var done: set<nat> := {};
      ghost var h0 := heap;
      while rest != {}
        invariant rest + done == bucket && rest !! done
        invariant heap == ReserveSome(h0, done, reservation)
        decreases |rest|
      {
        var r :| r in rest;
        MoveOne(rest, done, bucket, r);
        ReserveSomeStep(h0, done, r, reservation);
        ReserveItem(r, reservation);
        rest := rest - {r};
        done := done + {r};
      }
    }

    /** `updateReservedStock` for each code of `codes`, with the quantity
        the cart lookup holds for it. */
    method ReserveCodesLoop(codes: set<string>)
      requires Valid()
      modifies this`heap
      ensures Valid() && heap == ReserveCodes(old(heap), Reg(), codes, cartReserved)
    {
      var rest := codes;
      ghost var done: set<string> := {};
      ghost var h0 := heap;
      assert ReserveCodes(h0, Reg(), {}, cartReserved) == h0;
      while rest != {}
        invariant rest + done == codes && rest !! done
        invariant Valid() && heap == ReserveCodes(h0, Reg(), done, cartReserved)
        decreases |rest|
      {
        var code :| code in rest;
        MoveOne(rest, done, codes, code);
        ReserveCodesStep(h0, Reg(), done, code, cartReserved);
        UpdateReservedStock(code, LookupQty(cartReserved, code));
        rest := rest - {code};
        done := done + {code};
      }
    }

    /** `removeRegisteredItems` on one of the two registered sets: its
        objects leave their buckets, emptied buckets go, the set is
        emptied. */
    method RemoveRegisteredItems(fromAll: bool)
      requires Valid()
      modifies this`registry, this`registeredAll, this`registeredSearch
      ensures Valid()
      ensures fromAll ==> registeredAll == {} && registeredSearch == old(registeredSearch)
      ensures !fromAll ==> registeredSearch == {} && registeredAll == old(registeredAll)
      ensures Without(registry, old(registry), if fromAll then old(registeredAll) else old(registeredSearch))
    {
      if fromAll {
        assert Reg() == registeredSearch + registeredAll;
        registry := Unregister(heap, registry, registeredSearch, registeredAll);
        registeredAll := {};
      } else {
        registry := Unregister(heap, registry, registeredAll, registeredSearch);
        registeredSearch := {};
      }
    }

    /** The item objects of a server page come into existence: fresh
        references, nothing registered yet. */
    method Allocate(items: seq<Item>) returns (refs: seq<nat>)
      requires Valid()
      modifies this`heap, this`nextRef
      ensures Valid() && heap == Allocated(old(heap), old(nextRef), items) && refs == Fresh(old(nextRef), |items|)
      ensures nextRef == old(nextRef) + |items|
      ensures forall i :: 0 <= i < |refs| ==> refs[i] in heap && refs[i] !in old(heap)
      ensures forall r :: r in refs ==> r in heap && r !in Reg()
    {
      ghost var h0 := heap;
      heap := Allocated(heap, nextRef, items);
      refs := Fresh(nextRef, |items|);
      AllocatedKeeps(h0, nextRef, items);
      nextRef := nextRef + |items|;
      IndexesKept(h0, heap, registry, Reg());
    }

    /** `registerItems` on a list of references. */
    method RegisterItems(refs: seq<nat>, toAll: bool)
      requires Valid()
      requires forall r :: r in refs ==> r in heap && r !in (if toAll then registeredSearch else registeredAll)
      modifies this`heap, this`registry, this`registeredAll, this`registeredSearch
      ensures Valid() && heap == FixOriginals(old(heap), Elems(refs))
      ensures toAll ==> registeredAll == old(registeredAll) + Coded(old(heap), refs) && registeredSearch == old(registeredSearch)
      ensures !toAll ==> registeredSearch == old(registeredSearch) + Coded(old(heap), refs) && registeredAll == old(registeredAll)
    {
      var added;
      ghost var h0 := heap;
      heap, registry, added := RegisterList(heap, registry, Reg(), refs);
      assert heap.Keys == h0.Keys;
      if toAll {
        UnionSwap(registeredAll, registeredSearch, added);
        registeredAll := registeredAll + added;
      } else {
        UnionAssoc(registeredAll, registeredSearch, added);
        registeredSearch := registeredSearch + added;
      }
    }

    /** `replaceAllItems`: the old list's objects leave the registry, the
        new page's objects join it, the cache is dropped and every cart
        reservation is applied again to the new objects. */
    method ReplaceAllItems(items: Option<seq<Item>>)
      requires Valid()
      modifies this`heap, this`nextRef, this`allItems, this`registry, this`registeredAll, this`registeredSearch, this`baseCache
      ensures Valid()
      ensures var next := if items.Some? then items.value else [];
        var loaded := Allocated(old(heap), old(nextRef), next);
        allItems == Fresh(old(nextRef), |next|) &&
        registeredAll == Coded(loaded, allItems) && registeredSearch == old(registeredSearch) &&
        heap == ReserveCodes(FixOriginals(loaded, Elems(allItems)), Reg(), cartReserved.Keys - {""}, cartReserved)
      ensures baseCache == JsMap([], map[])
    {
      var next := if items.Some? then items.value else [];
      RemoveRegisteredItems(true);
      var refs := Allocate(next);
      allItems := refs;
      RegisterItems(refs, true);
      ClearBaseCache();
      ReserveCodesLoop(cartReserved.Keys - {""});
    }

    /** `appendAllItems`: a page's objects join the list and the registry,
        the cache is dropped, and the codes of the page that the cart
        reserves are recomputed. */
    method AppendAllItems(items: Option<seq<Item>>)
      requires Valid()
      modifies this`heap, this`nextRef, this`allItems, this`registry, this`registeredAll, this`registeredSearch, this`baseCache
      ensures Valid()
      ensures items.None? || items.value == [] ==> unchanged(this)
      ensures items.Some? && items.value != [] ==>
        var loaded := Allocated(old(heap), old(nextRef), items.value);
        var refs := Fresh(old(nextRef), |items.value|);
        allItems == old(allItems) + refs &&
        registeredAll == old(registeredAll) + Coded(loaded, refs) && registeredSearch == old(registeredSearch) &&
        heap == ReserveCodes(FixOriginals(loaded, Elems(refs)), Reg(), Impacted(items.value, cartReserved), cartReserved) &&
        baseCache == JsMap([], map[])
    {
      if items.None? || |items.value| == 0 {
        return;
      }
      var refs := Allocate(items.value);
      allItems := allItems + refs;
      RegisterItems(refs, true);
      ClearBaseCache();
      var codes := CollectImpacted(items.value, cartReserved);
      ReserveCodesLoop(codes);
    }

    /** `setSearchResults`: as `replaceAllItems` for the search list, with
        only the reserved codes of the results recomputed. */
    method SetSearchResults(items: Option<seq<Item>>)
      requires Valid()
      modifies this`heap, this`nextRef, this`searchResults, this`registry, this`registeredAll, this`registeredSearch, this`baseCache
      ensures Valid()
      ensures var next := if items.Some? then items.value else [];
        var loaded := Allocated(old(heap), old(nextRef), next);
        searchResults == Fresh(old(nextRef), |next|) &&
        registeredSearch == Coded(loaded, searchResults) && registeredAll == old(registeredAll) &&
        heap == ReserveCodes(FixOriginals(loaded, Elems(searchResults)), Reg(), Impacted(next, cartReserved), cartReserved)
      ensures baseCache == JsMap([], map[])
    {
      var next := if items.Some? then items.value else [];
      RemoveRegisteredItems(false);
      var refs := Allocate(next);
      searchResults := refs;
      RegisterItems(refs, false);
      ClearBaseCache();
      var codes := CollectImpacted(next, cartReserved);
      ReserveCodesLoop(codes);
    }

    /** `setCartItems`: the lookup is rebuilt from the cart, and every code
        of the old or the new lookup is recomputed. */
    method SetCartItems(items: Option<seq<CartEntry>>)
      requires Valid()
      modifies this`heap, this`cartItems, this`cartReserved
      ensures Valid() && cartItems == items && cartReserved == CartOf(items)
      ensures heap == ReserveCodes(old(heap), Reg(), old(cartReserved).Keys + cartReserved.Keys, cartReserved)
    {
      cartItems := items;
      var next: map<string, real> := map[];
      if items.Some? && |items.value| > 0 {
        next := BuildCartLookup(items.value);
      }
      var previous := cartReserved;
      cartReserved := next;
      ReserveCodesLoop(previous.Keys + next.Keys);
    }

    /** One update of `applyStockUpdates`, over the bucket of its code. */
    method RestockCode(u: StockUpdate)
      requires Valid()
      modifies this`heap
      ensures Valid() && heap == StocksApplied(old(heap), Reg(), u, LookupQty(cartReserved, u.code))
    {
      var reserved := LookupQty(cartReserved, u.code);
      IndexedBucket(heap, registry, Reg(), u.code);
      if u.code !in registry {
        StocksAppliedNone(heap, Reg(), u, reserved);
        return;
      }
      ghost var h0 := heap;
      heap := RestockBucket(heap, registry[u.code], u, reserved);
      RestockSomeAll(h0, Reg(), u, reserved);
      IndexesKept(h0, heap, registry, Reg());
    }

    /** `applyStockUpdates`: each coded update reaches the registered items
        of its code; the cache is dropped unless there was nothing to do. */
    method ApplyStockUpdates(updates: Option<seq<StockUpdate>>)
      requires Valid()
      modifies this`heap, this`baseCache
      ensures Valid()
      ensures updates.None? || updates.value == [] ==> heap == old(heap) && baseCache == old(baseCache)
      ensures updates.Some? && updates.value != [] ==>
        heap == ApplyUpdates(old(heap), Reg(), cartReserved, updates.value) && baseCache == JsMap([], map[])
    {
      if updates.None? || |updates.value| == 0 {
        return;
      }
      ApplyUpdatesLoop(updates.value);
      ClearBaseCache();
    }

    /** The `forEach` of `applyStockUpdates`. */
    method ApplyUpdatesLoop(us: seq<StockUpdate>)
      requires Valid()
      modifies this`heap
      ensures Valid() && heap == ApplyUpdates(old(heap), Reg(), cartReserved, us)
    {
      ghost var h0 := heap;
      var i := 0;
      while i < |us|
        invariant 0 <= i <= |us| && Valid()
        invariant heap == ApplyUpdates(h0, Reg(), cartReserved, us[..i])
      {
        ApplyUpdatesStep(h0, Reg(), cartReserved, us, i);
        if us[i].code != "" {
          RestockCode(us[i]);
        }
        i := i + 1;
      }
      assert us[..i] == us;
    }

    /** `loadMoreItems`; `page` is the server's answer, `None` when the call
        threw, and `cacheThrew` says whether writing it to the offline cache
        threw. */
    method LoadMoreItems(page: Option<seq<Item>>, cacheThrew: bool)
      requires Valid()
      modifies this`heap, this`nextRef, this`allItems, this`registry, this`registeredAll, this`registeredSearch, this`baseCache
      modifies this`currentOffset, this`hasMore, this`loadingMore, this`totalItemsLoaded
      ensures Valid()
      ensures Paging() == LoadMorePaging(old(Paging()), posProfile, searchTerm,
                                         if page.Some? then Some(|page.value|) else None, cacheThrew)
      ensures allItems == old(allItems) +
        if !LoadMoreSkipped(old(Paging()), posProfile, searchTerm) && page.Some?
        then Fresh(old(nextRef), |page.value|) else []
    {
      if loadingMore || !hasMore || !Truthy(posProfile) {
        return;
      }
      if !Blank(searchTerm) {
        return;
      }
      PageLoaded(page, cacheThrew);
    }

    /** `loadMoreItems` past its early returns: the page is appended and the
        counters move. */
    method PageLoaded(page: Option<seq<Item>>, cacheThrew: bool)
      requires Valid()
      modifies this`heap, this`nextRef, this`allItems, this`registry, this`registeredAll, this`registeredSearch, this`baseCache
      modifies this`currentOffset, this`hasMore, this`loadingMore, this`totalItemsLoaded
      ensures Valid()
      ensures Paging() == PageResult(old(Paging()), if page.Some? then Some(|page.value|) else None, cacheThrew)
      ensures allItems == old(allItems) + if page.Some? then Fresh(old(nextRef), |page.value|) else []
    {
      ghost var p0 := Paging();
      var n: Option<nat> := if page.Some? then Some(|page.value|) else None;
      loadingMore := true;
      AppendPage(page);
      assert Paging() == p0.(loadingMore := true);
      PageArrived(n, cacheThrew);
      assert PageResult(p0.(loadingMore := true), n, cacheThrew) == PageResult(p0, n, cacheThrew);
    }

    /** The `if (list.length > 0) appendAllItems(list)` of `loadMoreItems`:
        the page's new objects join the list, an empty page adds none. */
    method AppendPage(page: Option<seq<Item>>)
      requires Valid()
      modifies this`heap, this`nextRef, this`allItems, this`registry, this`registeredAll, this`registeredSearch, this`baseCache
      ensures Valid()
      ensures allItems == old(allItems) + if page.Some? then Fresh(old(nextRef), |page.value|) else []
    {
      if page.Some? && |page.value| > 0 {
        AppendAllItems(page);
      } else {
        assert Fresh(old(nextRef), 0) == [];
      }
    }

    /** The `try`/`catch`/`finally` of `loadMoreItems` on the paging
        counters, once the page is in. */
    method PageArrived(n: Option<nat>, cacheThrew: bool)
      modifies this`currentOffset, this`hasMore, this`loadingMore, this`totalItemsLoaded
      ensures Paging() == PageResult(old(Paging()), n, cacheThrew)
    {
      if n.None? {
        hasMore := false;
      } else if n.value > 0 {
        totalItemsLoaded := totalItemsLoaded + n.value;
        currentOffset := currentOffset + n.value;
        hasMore := n.value == ItemsPerPage;
        if cacheThrew {
          hasMore := false;
        }
      } else {
        hasMore := false;
      }
      loadingMore := false;
    }

    /** `setSearchTerm`; a term with text starts the server search, which is
        not part of this model, so only the clearing branch acts here. Only
        the search term, the search list and what `setSearchResults([])`
        writes can change: the main list, the cart lookup, the paging
        counters and the profile are outside the frame. */
    method SetSearchTerm(term: string)
      requires Valid()
      modifies this`heap, this`nextRef, this`searchResults, this`registry, this`registeredAll, this`registeredSearch
      modifies this`baseCache, this`searchTerm
      ensures Valid() && searchTerm == term
      ensures Blank(term) ==>
        searchResults == [] && registeredSearch == {} && baseCache == JsMap([], map[]) &&
        heap == old(heap) && registeredAll == old(registeredAll) && Indexes(heap, registry, registeredAll)
      ensures !Blank(term) ==>
        unchanged(this`heap, this`nextRef, this`searchResults, this`registry, this`registeredAll, this`registeredSearch) &&
        unchanged(this`baseCache)
    {
      searchTerm := term;
      if Blank(term) {
        ClearResults();
      }
    }

    /** `clearSearch`: the term and the search list are emptied; no object
        changes and the registry indexes exactly the main list's objects. */
    method ClearSearch()
      requires Valid()
      modifies this`heap, this`nextRef, this`searchResults, this`registry, this`registeredAll, this`registeredSearch
      modifies this`baseCache, this`searchTerm
      ensures Valid() && searchTerm == "" && searchResults == [] && registeredSearch == {}
      ensures registeredAll == old(registeredAll) && baseCache == JsMap([], map[])
      ensures heap == old(heap) && Indexes(heap, registry, registeredAll)
    {
      searchTerm := "";
      ClearResults();
    }

    /** `setSearchResults([])`: no object is allocated or re-reserved. */
    method ClearResults()
      requires Valid()
      modifies this`heap, this`nextRef, this`searchResults, this`registry, this`registeredAll, this`registeredSearch
      modifies this`baseCache
      ensures Valid() && searchResults == [] && registeredSearch == {} && baseCache == JsMap([], map[])
      ensures heap == old(heap) && registeredAll == old(registeredAll)
      ensures Indexes(heap, registry, registeredAll)
    {
      ghost var h0, n0 := heap, nextRef;
      SetSearchResults(Some([]));
      assert searchResults == [];
      assert registeredSearch == {} by {
        assert forall r :: r !in Coded(Allocated(h0, n0, []), []);
      }
      assert Reg() == registeredAll;
      NothingToReserve(h0, n0, Reg(), cartReserved);
    }

    /** `setSelectedItemGroup` and `invalidateCache` both drop the cache. */
    method InvalidateCache()
      modifies this`baseCache
      ensures baseCache == JsMap([], map[])
    {
      ClearBaseCache();
    }

    method SetPosProfile(profile: Option<string>)
      modifies this`posProfile
      ensures posProfile == profile
    {
      posProfile := profile;
    }
  }

  /** The `forEach` of `removeRegisteredItems` over the registry value. */
  method Unregister(heap: map<nat, Item>, registry: map<string, set<nat>>, kept: set<nat>, gone: set<nat>)
    returns (next: map<string, set<nat>>)
    requires Indexes(heap, registry, kept + gone) && kept !! gone
    ensures Indexes(heap, next, kept)
    ensures Without(next, registry, gone)
  {
    next := registry;
    var rest := gone;
    ghost var done: set<nat> := {};
    while rest != {}
      invariant rest + done == gone && rest !! done
      invariant Without(next, registry, done)
      decreases |rest|
    {
      var r :| r in rest;
      UnregisterStep(heap, registry, next, kept + gone, done, r);
      MoveOne(rest, done, gone, r);
      next := Unregistered(next, heap[r].code, r);
      rest := rest - {r};
      done := done + {r};
    }
    WithoutIndexes(heap, registry, next, kept, gone);
  }

  /** The `forEach` of `registerItems`: the heap and registry it leaves and
      the references it registers. */
  method RegisterList(heap: map<nat, Item>, registry: map<string, set<nat>>, reg: set<nat>, refs: seq<nat>)
    returns (h: map<nat, Item>, next: map<string, set<nat>>, added: set<nat>)
    requires Indexes(heap, registry, reg) && forall r :: r in refs ==> r in heap
    ensures h == FixOriginals(heap, Elems(refs)) && added == Coded(heap, refs)
    ensures Indexes(h, next, reg + added)
  {
    h, next, added := heap, registry, {};
    assert FixOriginals(heap, {}) == heap;
    var i := 0;
    while i < |refs|
      invariant 0 <= i <= |refs|
      invariant h == FixOriginals(heap, Elems(refs[..i])) && added == Coded(heap, refs[..i])
      invariant Indexes(h, next, reg + added)
    {
      var r := refs[i];
      RegisterTurn(heap, refs, i);
      FixOriginalsStep(heap, Elems(refs[..i]), r);
      assert h[r].code == heap[r].code;
      var more;
      h, next, more := RegisterOne(h, next, reg + added, r);
      UnionAssoc(reg, added, more);
      added := added + more;
      i := i + 1;
    }
    assert refs[..i] == refs;
  }

  /** One turn of `registerItems`: a coded object gets its original stock
      fixed and joins its code's bucket; `more` is what joins the registered
      set. */
  method RegisterOne(heap: map<nat, Item>, registry: map<string, set<nat>>, reg: set<nat>, r: nat)
    returns (h: map<nat, Item>, next: map<string, set<nat>>, more: set<nat>)
    requires Indexes(heap, registry, reg) && r in heap
    ensures h == FixOriginals(heap, {r}) && more == (if heap[r].code != "" then {r} else {})
    ensures Indexes(h, next, reg + more)
  {
    FixOne(heap, r);
    var code := heap[r].code;
    if code == "" {
      return heap, registry, {};
    }
    RegisterStep(heap, registry, reg, r);
    h := heap[r := WithOriginal(heap[r])];
    next := Registered(registry, code, r);
    IndexesKept(heap, h, next, reg + {r});
    more := {r};
  }

  /** The `impactedCodes` loop of `appendAllItems` and `setSearchResults`. */
  method CollectImpacted(items: seq<Item>, lookup: map<string, real>) returns (codes: set<string>)
    ensures codes == Impacted(items, lookup)
  {
    codes := {};
    var i := 0;
    while i < |items|
      invariant 0 <= i <= |items| && codes == Impacted(items[..i], lookup)
    {
      assert items[..i + 1] == items[..i] + [items[i]];
      if items[i].code != "" && items[i].code in lookup {
        codes := codes + {items[i].code};
      }
      i := i + 1;
    }
    assert items[..i] == items;
  }

  /** The `nextLookup` loop of `setCartItems`. */
  method BuildCartLookup(items: seq<CartEntry>) returns (m: map<string, real>)
    ensures m == CartLookup(items)
  {
    m := map[];
    var i := 0;
    while i < |items|
      invariant 0 <= i <= |items| && m == CartLookup(items[..i])
    {
      assert items[..i + 1][..i] == items[..i];
      if items[i].code != "" {
        m := m[items[i].code := OrNum(items[i].quantity, 0.0)];
      }
      i := i + 1;
    }
    assert items[..i] == items;
  }

  /** One item of `applyStockUpdates`: the update's quantity, or the
      original stock when it has none, becomes the new original stock, and
      both quantities show it less the cart quantity. */
  method RestockItem(it: Item, u: StockUpdate, reserved: real) returns (r: Item)
    ensures r == Restocked(it, u, reserved)
  {
    var baseline := if u.actualQty.Val? then u.actualQty else u.stockQty;
    var fixed := WithOriginal(it);
    var baseStock := if baseline.Val? then baseline.v else OriginalStock(it);
    var available := MaxReal(baseStock - reserved, 0.0);
    r := fixed.(originalStock := Val(baseStock), actualQty := Val(available), stockQty := Val(available),
                warehouse := if Truthy(u.warehouse) then u.warehouse else it.warehouse);
  }

  /** The `bucket.forEach` of `applyStockUpdates`. */
  method RestockBucket(heap: map<nat, Item>, bucket: set<nat>, u: StockUpdate, reserved: real) returns (h: map<nat, Item>)
    requires forall r :: r in bucket ==> r in heap
    ensures h == RestockSome(heap, bucket, u, reserved)
  {
    h := heap;
    var rest := bucket;
    ghost var done: set<nat> := {};
    while rest != {}
      invariant rest + done == bucket && rest !! done
      invariant h == RestockSome(heap, done, u, reserved)
      decreases |rest|
    {
      var r :| r in rest;
      MoveOne(rest, done, bucket, r);
      RestockSomeStep(heap, done, r, u, reserved);
      var it := RestockItem(h[r], u, reserved);
      h := h[r := it];
      rest := rest - {r};
      done := done + {r};
    }
  }
}
