// The item and customer cache writers and readers (items.js): rows go
// into the offline database with their barcodes extracted, an optional
// price list adds one price row per item, and the last-sync settings say
// whether the cache is fresh.

module OfflineItemsModel {
  import opened Common
  import opened OfflineWorkerModel
  import opened OfflineDbModel
  import OfflineCacheModel

  /** `item_barcode.map(b => b.barcode).filter(Boolean)`; `None` when an
      element is `null` (its `.barcode` throws). A bare value has no
      `barcode` field and drops out. */
  function ObjectBarcodes(elems: seq<BarcodeElem>): (r: Option<seq<string>>)
    ensures r.None? <==> exists i :: 0 <= i < |elems| && elems[i].ElemNull?
  {
    if elems == [] then Some([])
    else
      var rest := ObjectBarcodes(elems[..|elems| - 1]);
      var e := elems[|elems| - 1];
      if rest.None? || e.ElemNull? then None
      else if e.ElemObject? && Truthy(e.barcode) then Some(rest.value + [e.barcode.value])
      else rest
  }

  /** The barcodes kept are exactly the non-empty `barcode` fields of the
      object elements. */
  lemma {:induction false} ObjectBarcodesMembers(elems: seq<BarcodeElem>)
    requires ObjectBarcodes(elems).Some?
    ensures forall b :: b in ObjectBarcodes(elems).value <==>
      b != "" && exists i :: 0 <= i < |elems| && elems[i] == ElemObject(Some(b))
  {
    if elems != [] {
      var init := elems[..|elems| - 1];
      ObjectBarcodesMembers(init);
      forall b | b != "" && (exists i :: 0 <= i < |elems| && elems[i] == ElemObject(Some(b)))
        ensures b in ObjectBarcodes(elems).value
      {
        var i :| 0 <= i < |elems| && elems[i] == ElemObject(Some(b));
        if i < |elems| - 1 {
          assert init[i] == elems[i];
        }
      }
      forall b | b in ObjectBarcodes(elems).value
        ensures b != "" && exists i :: 0 <= i < |elems| && elems[i] == ElemObject(Some(b))
      {
        if b in ObjectBarcodes(init).value {
          var i :| 0 <= i < |init| && init[i] == ElemObject(Some(b));
          assert elems[i] == init[i];
        } else {
          assert elems[|elems| - 1] == ElemObject(Some(b));
        }
      }
    }
  }

  /** The `barcodes` field `cacheItems` stores for an item: from an array,
      the object barcodes; a single non-empty value, wrapped; otherwise
      none. */
  function StoredBarcodes(it: ItemRow): Option<seq<string>>
  {
    match it.itemBarcode
    case NoItemBarcode => Some([])
    case SingleBarcode(v) => if v == "" then Some([]) else Some([v])
    case BarcodeArray(es) => ObjectBarcodes(es)
  }

  /** The items of `cacheItems` with their `barcodes` replaced; `None`
      when one of them throws. */
  function WithBarcodes(items: seq<ItemRow>): (r: Option<seq<ItemRow>>)
    ensures r.Some? ==>
      |r.value| == |items| &&
      forall i :: 0 <= i < |items| ==> r.value[i] == items[i].(barcodes := StoredBarcodes(items[i]))
    ensures r.None? <==> exists i :: 0 <= i < |items| && StoredBarcodes(items[i]).None?
  {
    if items == [] then Some([])
    else
      var rest := WithBarcodes(items[..|items| - 1]);
      var it := items[|items| - 1];
      if rest.None? || StoredBarcodes(it).None? then None
      else Some(rest.value + [it.(barcodes := StoredBarcodes(it))])
  }

  /** A row of the `item_prices` table, keyed by price list and item. */
  datatype PriceRow = PriceRow(priceList: string, itemCode: string, rate: real, timestamp: int)

  /** The price row `cacheItems` writes: `rate || price_list_rate || 0`. */
  function PriceOf(it: ItemRow, priceList: string, now: int): (p: PriceRow)
    ensures p.priceList == priceList && p.itemCode == it.code && p.timestamp == now
    ensures it.rate.Val? && it.rate.v != 0.0 ==> p.rate == it.rate.v
    ensures !(it.rate.Val? && it.rate.v != 0.0) && it.priceListRate.Val? && it.priceListRate.v != 0.0 ==>
      p.rate == it.priceListRate.v
    ensures !(it.rate.Val? && it.rate.v != 0.0) && !(it.priceListRate.Val? && it.priceListRate.v != 0.0) ==> p.rate == 0.0
  {
    PriceRow(priceList, it.code, JsOr(it.rate, JsOr(it.priceListRate, 0.0)), now)
  }

  function PriceRows(items: seq<ItemRow>, priceList: string, now: int): (r: seq<PriceRow>)
    ensures |r| == |items| && forall i :: 0 <= i < |items| ==> r[i] == PriceOf(items[i], priceList, now)
  {
    if items == [] then [] else PriceRows(items[..|items| - 1], priceList, now) + [PriceOf(items[|items| - 1], priceList, now)]
  }

  /** `bulkPut` of price rows under their compound key. */
  function PutPrices(table: map<(string, string), PriceRow>, rows: seq<PriceRow>): map<(string, string), PriceRow>
  {
    if rows == [] then table
    else var last := rows[|rows| - 1]; PutPrices(table, rows[..|rows| - 1])[(last.priceList, last.itemCode) := last]
  }

  /** After a `bulkPut` of items, an item's code finds the last row written
      under it. */
  lemma {:induction false} PutItemsLookup(table: JsMap<ItemRow>, rows: seq<ItemRow>, i: nat)
    requires i < |rows| && forall j :: i < j < |rows| ==> rows[j].code != rows[i].code
    ensures rows[i].code in PutItems(table, rows).vals && PutItems(table, rows).vals[rows[i].code] == rows[i]
  {
    if i < |rows| - 1 {
      PutItemsLookup(table, rows[..|rows| - 1], i);
    }
  }

  /** The same for price rows. */
  lemma {:induction false} PutPricesLookup(table: map<(string, string), PriceRow>, rows: seq<PriceRow>, i: nat)
    requires i < |rows|
    requires forall j :: i < j < |rows| ==> (rows[j].priceList, rows[j].itemCode) != (rows[i].priceList, rows[i].itemCode)
    ensures (rows[i].priceList, rows[i].itemCode) in PutPrices(table, rows)
    ensures PutPrices(table, rows)[(rows[i].priceList, rows[i].itemCode)] == rows[i]
  {
    if i < |rows| - 1 {
      PutPricesLookup(table, rows[..|rows| - 1], i);
    }
  }

  /** The tables `items.js` touches. */
  datatype ItemsDb = ItemsDb(items: JsMap<ItemRow>, customers: JsMap<Customer>,
                             prices: map<(string, string), PriceRow>, settings: map<string, SettingValue>)

  /** `cacheItems(items, priceList)` at time `now`; `None` is the
      `undefined` of the early return. `failAt` is 0 when the item
      `bulkPut` throws and 1 when the price `bulkPut` does. */
  function CachedItems(d: ItemsDb, items: Option<seq<ItemRow>>, priceList: Option<string>, now: int,
                       failAt: Option<nat>): (ItemsDb, Option<bool>)
  {
    if items.None? || items.value == [] then (d, None)
    else
      var processed := WithBarcodes(items.value);
      if processed.None? || failAt == Some(0) then (d, Some(false))
      else
        var d1 := d.(items := PutItems(d.items, processed.value));
        if !Truthy(priceList) then (d1.(settings := d1.settings[OfflineCacheModel.ItemsLastSyncKey := SNum(now)]), Some(true))
        else if failAt == Some(1) then (d1, Some(false))
        else
          var d2 := d1.(prices := PutPrices(d1.prices, PriceRows(items.value, priceList.value, now)));
          (d2.(settings := d2.settings[OfflineCacheModel.ItemsLastSyncKey := SNum(now)]), Some(true))
  }

  /** `cacheCustomers(customers)`; `fails` says whether the `bulkPut`
      throws. */
  function CachedCustomers(d: ItemsDb, customers: Option<seq<Customer>>, now: int, fails: bool): (ItemsDb, Option<bool>)
  {
    if customers.None? || customers.value == [] then (d, None)
    else if fails then (d, Some(false))
    else
      (d.(customers := PutCustomers(d.customers, customers.value),
          settings := d.settings[OfflineCacheModel.CustomersLastSyncKey := SNum(now)]), Some(true))
  }

  /** `getItemWithPrice(itemCode, priceList)`; `fails` says whether a read
      throws. */
  function ItemWithPrice(d: ItemsDb, itemCode: string, priceList: Option<string>, fails: bool): Option<ItemRow>
  {
    if fails || itemCode !in d.items.vals then None
    else
      var item := d.items.vals[itemCode];
      if Truthy(priceList) && (priceList.value, itemCode) in d.prices then
        var p := d.prices[(priceList.value, itemCode)];
        Some(item.(rate := Val(p.rate), priceListRate := Val(p.rate)))
      else Some(item)
  }

  /** `isCacheFresh(type)`: the items timestamp for `"items"`, the
      customers one otherwise; fresh when fewer than 24 hours have passed. */
  predicate IsCacheFresh(st: map<string, SettingValue>, kind: string, now: int, readFails: bool)
  {
    var key := if kind == "items" then OfflineCacheModel.ItemsLastSyncKey else OfflineCacheModel.CustomersLastSyncKey;
    var lastSync := GetSetting(st, key, SNull, readFails);
    SettingTruthy(lastSync) && ((now - SettingNumber(lastSync)) as real) / 3600000.0 < 24.0
  }

  /** An empty or missing list writes nothing and returns `undefined`; an
      item that throws, or a throwing item `bulkPut`, writes nothing; the
      sync time is stamped only on success. */
  lemma CachedItemsFacts(d: ItemsDb, items: Option<seq<ItemRow>>, priceList: Option<string>, now: int, failAt: Option<nat>)
    ensures var (t, r) := CachedItems(d, items, priceList, now, failAt);
      (items.None? || items.value == [] <==> r.None?) && (r.None? ==> t == d) &&
      (r == Some(true) <==>
        r.Some? && WithBarcodes(items.value).Some? && failAt != Some(0) && (Truthy(priceList) ==> failAt != Some(1))) &&
      t.customers == d.customers
    ensures var (t, r) := CachedItems(d, items, priceList, now, failAt);
      r.Some? && (WithBarcodes(items.value).None? || failAt == Some(0)) ==> t == d
    ensures var (t, r) := CachedItems(d, items, priceList, now, failAt);
      (r == Some(true) ==>
        OfflineCacheModel.ItemsLastSyncKey in t.settings && t.settings[OfflineCacheModel.ItemsLastSyncKey] == SNum(now)) &&
      (r != Some(true) ==> t.settings == d.settings) &&
      (!Truthy(priceList) ==> t.prices == d.prices)
  {
  }

  /** After a successful `cacheItems` with a price list, an item that is
      the last of its code comes back from `getItemWithPrice` with its
      stored barcodes and the rate its price row took. */
  lemma CachedThenPriced(d: ItemsDb, items: seq<ItemRow>, priceList: string, now: int, failAt: Option<nat>, i: nat)
    requires i < |items| && forall j :: i < j < |items| ==> items[j].code != items[i].code
    requires priceList != "" && WithBarcodes(items).Some? && failAt != Some(0) && failAt != Some(1)
    ensures var t := CachedItems(d, Some(items), Some(priceList), now, failAt).0;
      var rate := PriceOf(items[i], priceList, now).rate;
      ItemWithPrice(t, items[i].code, Some(priceList), false) ==
        Some(items[i].(barcodes := StoredBarcodes(items[i]), rate := Val(rate), priceListRate := Val(rate)))
  {
    var processed := WithBarcodes(items).value;
    var rows := PriceRows(items, priceList, now);
    var d1 := d.(items := PutItems(d.items, processed));
    var d2 := d1.(prices := PutPrices(d1.prices, rows));
    var t := d2.(settings := d2.settings[OfflineCacheModel.ItemsLastSyncKey := SNum(now)]);
    assert CachedItems(d, Some(items), Some(priceList), now, failAt).0 == t;
    PutItemsLookup(d.items, processed, i);
    PutPricesLookup(d.prices, rows, i);
    PricedLookup(t, items[i].code, priceList, processed[i], rows[i]);
  }

  /** `getItemWithPrice` on a stored item with a stored price row. */
  lemma PricedLookup(t: ItemsDb, code: string, priceList: string, item: ItemRow, p: PriceRow)
    requires priceList != "" && code in t.items.vals && t.items.vals[code] == item
    requires (priceList, code) in t.prices && t.prices[(priceList, code)] == p
    ensures ItemWithPrice(t, code, Some(priceList), false) == Some(item.(rate := Val(p.rate), priceListRate := Val(p.rate)))
  {
  }

  /** Without a price row (or without a price list) the cached item comes
      back as it was stored; uncached codes give `null`. */
  lemma ItemWithPriceFacts(d: ItemsDb, itemCode: string, priceList: Option<string>, fails: bool)
    ensures fails || itemCode !in d.items.vals <==> ItemWithPrice(d, itemCode, priceList, fails).None?
    ensures !fails && itemCode in d.items.vals && !(Truthy(priceList) && (priceList.value, itemCode) in d.prices) ==>
      ItemWithPrice(d, itemCode, priceList, fails) == Some(d.items.vals[itemCode])
    ensures forall r :: ItemWithPrice(d, itemCode, priceList, fails) == Some(r) ==>
      r == d.items.vals[itemCode].(rate := r.rate, priceListRate := r.priceListRate) &&
      (r != d.items.vals[itemCode] ==> r.rate == r.priceListRate)
  {
  }

  /** A customer list behaves like an item list: empty is a no-op, a
      throwing write changes nothing, success stamps the customers' sync
      time and leaves the items alone. */
  lemma CachedCustomersFacts(d: ItemsDb, customers: Option<seq<Customer>>, now: int, fails: bool)
    ensures var (t, r) := CachedCustomers(d, customers, now, fails);
      (customers.None? || customers.value == [] <==> r.None?) &&
      (r != Some(true) ==> t == d) &&
      (r == Some(true) <==> r.Some? && !fails) &&
      t.items == d.items && t.prices == d.prices &&
      (r == Some(true) ==> t.settings[OfflineCacheModel.CustomersLastSyncKey] == SNum(now))
  {
  }

  /** Freshness and the refresh rule of the memory cache are complements,
      except at exactly one day after the sync, when the cache is neither
      fresh nor due for a refresh. */
  lemma FreshVersusRefresh(st: map<string, SettingValue>, now: int, readFails: bool)
    ensures var v := GetSetting(st, OfflineCacheModel.ItemsLastSyncKey, SNull, readFails);
      (IsCacheFresh(st, "items", now, readFails) ==> !OfflineCacheModel.NeedsRefresh(v, now)) &&
      (!IsCacheFresh(st, "items", now, readFails) && !OfflineCacheModel.NeedsRefresh(v, now) <==>
        SettingTruthy(v) && now - SettingNumber(v) == OfflineCacheModel.OneDay)
  {
  }

  /** Right after a successful `cacheItems` at a non-zero time, the item
      cache is fresh until a day has passed. */
  lemma CachedItemsFresh(d: ItemsDb, items: Option<seq<ItemRow>>, priceList: Option<string>, now: int,
                         failAt: Option<nat>, later: int)
    requires CachedItems(d, items, priceList, now, failAt).1 == Some(true) && now != 0
    requires now <= later < now + OfflineCacheModel.OneDay
    ensures IsCacheFresh(CachedItems(d, items, priceList, now, failAt).0.settings, "items", later, false)
  {
    CachedItemsFacts(d, items, priceList, now, failAt);
  }
}

module OfflineItems {
  import opened Common
  import opened OfflineWorkerModel
  import opened OfflineDbModel
  import OfflineCacheModel
  import opened OfflineItemsModel

  /** `bulkPut` of item rows, one `put` at a time. */
  method BulkPutItems(table: JsMap<ItemRow>, rows: seq<ItemRow>) returns (r: JsMap<ItemRow>)
    requires JsMapValid(table)
    ensures r == PutItems(table, rows) && JsMapValid(r)
  {
    r := table;
    PutItemsValid(table, rows);
    var i := 0;
    while i < |rows|
      invariant 0 <= i <= |rows| && r == PutItems(table, rows[..i])
    {
      assert rows[..i + 1][..i] == rows[..i];
      r := MapSet(r, rows[i].code, rows[i]);
      i := i + 1;
    }
    assert rows[..|rows|] == rows;
  }

  method BulkPutPrices(table: map<(string, string), PriceRow>, rows: seq<PriceRow>) returns (r: map<(string, string), PriceRow>)
    ensures r == PutPrices(table, rows)
  {
    r := table;
    var i := 0;
    while i < |rows|
      invariant 0 <= i <= |rows| && r == PutPrices(table, rows[..i])
    {
      assert rows[..i + 1][..i] == rows[..i];
      r := r[(rows[i].priceList, rows[i].itemCode) := rows[i]];
      i := i + 1;
    }
    assert rows[..|rows|] == rows;
  }

  method BulkPutCustomers(table: JsMap<Customer>, rows: seq<Customer>) returns (r: JsMap<Customer>)
    requires JsMapValid(table)
    ensures r == PutCustomers(table, rows) && JsMapValid(r)
  {
    r := table;
    PutCustomersValid(table, rows);
    var i := 0;
    while i < |rows|
      invariant 0 <= i <= |rows| && r == PutCustomers(table, rows[..i])
    {
      assert rows[..i + 1][..i] == rows[..i];
      r := MapSet(r, Coalesce(rows[i].name, ""), rows[i]);
      i := i + 1;
    }
    assert rows[..|rows|] == rows;
  }

  /** The offline database as `items.js` sees it. */
  class ItemsCache {
    var items: JsMap<ItemRow>
    var customers: JsMap<Customer>
    var prices: map<(string, string), PriceRow>
    var settings: map<string, SettingValue>

    function State(): ItemsDb
      reads this
    {
      ItemsDb(items, customers, prices, settings)
    }

    ghost predicate Valid()
      reads this`items, this`customers
    {
      JsMapValid(items) && JsMapValid(customers)
    }

    constructor()
      ensures Valid() && State() == ItemsDb(JsMap([], map[]), JsMap([], map[]), map[], map[])
    {
      items := JsMap([], map[]);
      customers := JsMap([], map[]);
      prices := map[];
      settings := map[];
    }

    method CacheItems(rows: Option<seq<ItemRow>>, priceList: Option<string>, now: int, failAt: Option<nat>)
      returns (r: Option<bool>)
      requires Valid()
      modifies this`items, this`prices, this`settings
      ensures Valid()
      ensures (State(), r) == CachedItems(old(State()), rows, priceList, now, failAt)
    {
      if rows.None? || |rows.value| == 0 {
        return None;
      }
      var processed := WithBarcodes(rows.value);
      if processed.None? || failAt == Some(0) {
        return Some(false);
      }
      items := BulkPutItems(items, processed.value);
      if Truthy(priceList) {
        if failAt == Some(1) {
          return Some(false);
        }
        prices := BulkPutPrices(prices, PriceRows(rows.value, priceList.value, now));
      }
      settings := settings[OfflineCacheModel.ItemsLastSyncKey := SNum(now)];
      r := Some(true);
    }

    method CacheCustomers(rows: Option<seq<Customer>>, now: int, fails: bool) returns (r: Option<bool>)
      requires Valid()
      modifies this`customers, this`settings
      ensures Valid()
      ensures (State(), r) == CachedCustomers(old(State()), rows, now, fails)
    {
      if rows.None? || |rows.value| == 0 {
        return None;
      }
      if fails {
        return Some(false);
      }
      customers := BulkPutCustomers(customers, rows.value);
      settings := settings[OfflineCacheModel.CustomersLastSyncKey := SNum(now)];
      r := Some(true);
    }

    /** `getItemWithPrice`: the fetched row is updated in place before it
        is returned. */
    method GetItemWithPrice(itemCode: string, priceList: Option<string>, fails: bool) returns (r: Option<ItemRow>)
      ensures r == ItemWithPrice(State(), itemCode, priceList, fails)
    {
      if fails || itemCode !in items.vals {
        return None;
      }
      var item := items.vals[itemCode];
      if Truthy(priceList) && (priceList.value, itemCode) in prices {
        var price := prices[(priceList.value, itemCode)];
        item := item.(rate := Val(price.rate));
        item := item.(priceListRate := Val(price.rate));
      }
      r := Some(item);
    }
  }
}
