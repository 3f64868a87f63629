// The server side of the item catalogue (pos_next/api/items.py): stock
// availability, the batch and UOM details of one item, and the display
// price, stock and UOM enrichment of the item and variant lists.

module ItemApiModel {
  import opened Common

  // ---------------------------------------------------------------------
  // Stock

  /** A row of the Bin table; quantities are `None` when NULL. */
  datatype BinRow = BinRow(itemCode: string, warehouse: string, actualQty: Option<real>, reservedQty: Option<real>)

  function Qty(q: Option<real>): real
  {
    if q.Some? then q.value else 0.0
  }

  /** `SUM(actual_qty)` of the item's bins in the given warehouses. */
  function SumActual(bins: seq<BinRow>, itemCode: string, warehouses: seq<string>): real
  {
    if bins == [] then 0.0
    else
      var b := bins[|bins| - 1];
      SumActual(bins[..|bins| - 1], itemCode, warehouses) +
        (if b.itemCode == itemCode && b.warehouse in warehouses then Qty(b.actualQty) else 0.0)
  }

  /** The warehouse tree: `groups` are the group warehouses and
      `descendants` lists each group's descendants. */
  datatype Warehouses = Warehouses(groups: set<string>, descendants: map<string, seq<string>>)

  /** The warehouses a stock query covers: a plain warehouse itself, a
      group its descendants. */
  function Covered(warehouse: string, tree: Warehouses): seq<string>
  {
    if warehouse in tree.groups then (if warehouse in tree.descendants then tree.descendants[warehouse] else [])
    else [warehouse]
  }

  /** `get_stock_availability`. */
  function StockAvailability(itemCode: string, warehouse: string, tree: Warehouses, bins: seq<BinRow>): real
  {
    if warehouse == "" then 0.0 else SumActual(bins, itemCode, Covered(warehouse, tree))
  }

  /** Bins of other items or of uncovered warehouses add nothing. */
  lemma {:induction false} SumActualIgnores(bins: seq<BinRow>, itemCode: string, warehouses: seq<string>)
    requires forall i :: 0 <= i < |bins| ==> bins[i].itemCode != itemCode || bins[i].warehouse !in warehouses
    ensures SumActual(bins, itemCode, warehouses) == 0.0
  {
    if bins != [] {
      SumActualIgnores(bins[..|bins| - 1], itemCode, warehouses);
    }
  }

  /** The stock of two Bin tables together is the sum of their stocks. */
  lemma {:induction false} SumActualConcat(a: seq<BinRow>, b: seq<BinRow>, itemCode: string, warehouses: seq<string>)
    ensures SumActual(a + b, itemCode, warehouses) == SumActual(a, itemCode, warehouses) + SumActual(b, itemCode, warehouses)
  {
    if b == [] {
      assert a + b == a;
    } else {
      assert (a + b)[..|a + b| - 1] == a + b[..|b| - 1];
      SumActualConcat(a, b[..|b| - 1], itemCode, warehouses);
    }
  }

  /** Without a warehouse there is no stock; a plain warehouse counts only
      its own bins of the item, a group only its descendants'. */
  lemma StockAvailabilityFacts(itemCode: string, warehouse: string, tree: Warehouses, bins: seq<BinRow>)
    ensures warehouse == "" ==> StockAvailability(itemCode, warehouse, tree, bins) == 0.0
    ensures warehouse != "" && warehouse !in tree.groups ==>
      StockAvailability(itemCode, warehouse, tree, bins) == SumActual(bins, itemCode, [warehouse])
    ensures warehouse != "" && warehouse in tree.groups && warehouse !in tree.descendants ==>
      StockAvailability(itemCode, warehouse, tree, bins) == 0.0
  {
    if warehouse != "" && warehouse in tree.groups && warehouse !in tree.descendants {
      SumActualIgnores(bins, itemCode, []);
    }
  }

  /** The first Bin row of the item in the warehouse (`frappe.db.get_value`). */
  function FirstBin(bins: seq<BinRow>, itemCode: string, warehouse: string): (r: Option<BinRow>)
    ensures r.Some? ==> r.value in bins && r.value.itemCode == itemCode && r.value.warehouse == warehouse
    ensures r.None? ==> forall b :: b in bins ==> b.itemCode != itemCode || b.warehouse != warehouse
  {
    if bins == [] then None
    else if bins[0].itemCode == itemCode && bins[0].warehouse == warehouse then Some(bins[0])
    else FirstBin(bins[1..], itemCode, warehouse)
  }

  /** `get_value(...) or 0`: NULL and 0 both give 0. */
  function BinActual(bins: seq<BinRow>, itemCode: string, warehouse: string): real
  {
    var b := FirstBin(bins, itemCode, warehouse);
    if b.Some? then OrNum(b.value.actualQty, 0.0) else 0.0
  }

  datatype StockInfo = StockInfo(itemCode: string, warehouse: string, stockQty: real, reservedQty: real, availableQty: real)

  /** `get_item_stock`. */
  function ItemStock(itemCode: string, warehouse: string, bins: seq<BinRow>): StockInfo
  {
    var b := FirstBin(bins, itemCode, warehouse);
    var stock := BinActual(bins, itemCode, warehouse);
    var reserved := if b.Some? then OrNum(b.value.reservedQty, 0.0) else 0.0;
    StockInfo(itemCode, warehouse, stock, reserved, stock - reserved)
  }

  /** The available quantity is the stock less the reserved quantity of the
      item's bin in that warehouse, and there is none without a bin. */
  lemma ItemStockFacts(itemCode: string, warehouse: string, bins: seq<BinRow>)
    ensures var s := ItemStock(itemCode, warehouse, bins);
      s.availableQty == s.stockQty - s.reservedQty &&
      ((forall b :: b in bins ==> b.itemCode != itemCode || b.warehouse != warehouse) ==>
        s.stockQty == 0.0 && s.reservedQty == 0.0 && s.availableQty == 0.0) &&
      (forall b :: b in bins && b.itemCode == itemCode && b.warehouse == warehouse && b == bins[0] ==>
        s.stockQty == Qty(b.actualQty) && s.reservedQty == Qty(b.reservedQty))
  {
  }

  // ---------------------------------------------------------------------
  // One item's details: batches and UOMs

  /** A row of ERPNext's `get_batch_qty`. */
  datatype BatchQty = BatchQty(batchNo: string, qty: real)

  /** A Batch document; dates are ISO strings, `None` when unset. */
  datatype BatchDoc = BatchDoc(expiry: Option<string>, manufacturing: Option<string>, disabled: int)

  datatype BatchOffer = BatchOffer(batchNo: string, qty: real, expiry: Option<string>, manufacturing: Option<string>)

  /** Python's `a < b` on strings: code point by code point. */
  predicate LexLess(a: string, b: string)
  {
    if a == [] then b != []
    else if b == [] then false
    else if a[0] != b[0] then a[0] < b[0]
    else LexLess(a[1..], b[1..])
  }

  /** `str(expiry) > str(today) or expiry in ["", None]`. */
  predicate Unexpired(expiry: Option<string>, today: string)
  {
    expiry.None? || expiry.value == "" || LexLess(today, expiry.value)
  }

  /** A batch the loop considers: positive quantity and a batch number. */
  predicate Candidate(b: BatchQty)
  {
    b.qty > 0.0 && b.batchNo != ""
  }

  /** The batches offered, in `get_batch_qty` order; a missing Batch
      document is an error. */
  function OfferedBatches(batches: seq<BatchQty>, docs: map<string, BatchDoc>, today: string): Result<seq<BatchOffer>>
  {
    if batches == [] then Ok([])
    else
      var b := batches[|batches| - 1];
      match OfferedBatches(batches[..|batches| - 1], docs, today)
      case Err(m) => Err(m)
      case Ok(front) =>
        if !Candidate(b) then Ok(front)
        else if b.batchNo !in docs then Err("Batch " + b.batchNo + " not found")
        else
          var d := docs[b.batchNo];
          if Unexpired(d.expiry, today) && d.disabled == 0 then Ok(front + [BatchOffer(b.batchNo, b.qty, d.expiry, d.manufacturing)])
          else Ok(front)
  }

  /** Only batches with stock, a known number, not disabled and unexpired
      (or without an expiry date) are offered, each with its quantity and
      dates, and every such batch is. */
  lemma {:induction false} OfferedBatchesFacts(batches: seq<BatchQty>, docs: map<string, BatchDoc>, today: string)
    ensures var r := OfferedBatches(batches, docs, today);
      r.Ok? ==>
        (forall o :: o in r.value ==>
          o.qty > 0.0 && o.batchNo != "" && o.batchNo in docs && docs[o.batchNo].disabled == 0 &&
          Unexpired(docs[o.batchNo].expiry, today) && o.expiry == docs[o.batchNo].expiry &&
          BatchQty(o.batchNo, o.qty) in batches) &&
        (forall b :: b in batches && Candidate(b) ==>
          b.batchNo in docs &&
          (docs[b.batchNo].disabled == 0 && Unexpired(docs[b.batchNo].expiry, today) ==>
            BatchOffer(b.batchNo, b.qty, docs[b.batchNo].expiry, docs[b.batchNo].manufacturing) in r.value))
  {
    if batches != [] {
      var front := batches[..|batches| - 1];
      OfferedBatchesFacts(front, docs, today);
      assert batches == front + [batches[|batches| - 1]];
    }
  }

  /** A row of the item's UOM conversion table. */
  datatype UomEntry = UomEntry(uom: string, factor: Option<real>)

  predicate HasUom(uoms: seq<UomEntry>, uom: string)
  {
    exists u :: u in uoms && u.uom == uom
  }

  /** `get_item_detail` adds the stock UOM with factor 1 unless it is
      already listed. */
  function WithStockUom(uoms: seq<UomEntry>, stockUom: string): seq<UomEntry>
  {
    if stockUom != "" && !HasUom(uoms, stockUom) then uoms + [UomEntry(stockUom, Some(1.0))] else uoms
  }

  /** The stock UOM is appended, with factor 1, exactly when it is set and
      absent; afterwards a set stock UOM is always listed, and the listed
      UOMs keep their order. */
  lemma WithStockUomFacts(uoms: seq<UomEntry>, stockUom: string)
    ensures var r := WithStockUom(uoms, stockUom);
      r[..|uoms|] == uoms &&
      (|r| == |uoms| + 1 <==> stockUom != "" && !HasUom(uoms, stockUom)) &&
      (|r| == |uoms| + 1 ==> r[|uoms|] == UomEntry(stockUom, Some(1.0))) &&
      (|r| == |uoms| || |r| == |uoms| + 1) &&
      (stockUom != "" ==> HasUom(r, stockUom))
  {
    var r := WithStockUom(uoms, stockUom);
    if stockUom != "" && !HasUom(uoms, stockUom) {
      assert r[|uoms|] in r;
    }
  }

  /** `get_item_detail` replaces ERPNext's `actual_qty` only for a stock
      item with a warehouse; `None` keeps ERPNext's value. */
  function DetailActualQty(itemCode: string, isStockItem: bool, warehouse: string, tree: Warehouses, bins: seq<BinRow>): Option<real>
  {
    if isStockItem && warehouse != "" then Some(StockAvailability(itemCode, warehouse, tree, bins)) else None
  }

  /** Only a stock item in a warehouse gets its quantity from the bins. */
  lemma DetailActualQtyFacts(itemCode: string, isStockItem: bool, warehouse: string, tree: Warehouses, bins: seq<BinRow>)
    ensures DetailActualQty(itemCode, isStockItem, warehouse, tree, bins).Some? <==> isStockItem && warehouse != ""
  {
  }

  // ---------------------------------------------------------------------
  // The item list: display price, stock and UOMs

  /** A row of the Item Price table (`uom` is "" when unset). */
  datatype ItemPrice = ItemPrice(itemCode: string, priceList: string, uom: string, rate: Option<real>)

  /** The Item fields the variant price query joins on. */
  datatype ItemRecord = ItemRecord(variantOf: string, disabled: int)

  /** A row of the UOM Conversion Detail table. */
  datatype UomRow = UomRow(parent: string, uom: string, factor: Option<real>)

  /** What the enrichment reads: the profile's price list and warehouse and
      the tables it queries. */
  datatype Catalog = Catalog(
    priceList: string, warehouse: string, prices: seq<ItemPrice>, items: map<string, ItemRecord>,
    conversions: seq<UomRow>, bins: seq<BinRow>, barcodes: map<string, string>)

  /** The pricing fields the enrichment writes. */
  datatype Pricing = Pricing(
    rate: real, priceListRate: real, uom: string, priceUom: string, conversionFactor: real, priceListRatePriceUom: real)

  /** An item of the list, with the fields the query returns and those the
      enrichment writes. */
  datatype ListedItem = ListedItem(
    itemCode: string, stockUom: string, isStockItem: bool, hasVariants: bool,
    pricing: Pricing, actualQty: real, warehouse: string, barcode: string,
    itemUoms: seq<UomEntry>, uomPrices: JsMap<Option<real>>)

  /** The first price of the item in the price list, restricted to one UOM
      when `uom` is given. */
  function FirstPrice(prices: seq<ItemPrice>, itemCode: string, priceList: string, uom: Option<string>): (r: Option<ItemPrice>)
    ensures r.Some? ==>
      r.value in prices && r.value.itemCode == itemCode && r.value.priceList == priceList &&
      (uom.Some? ==> r.value.uom == uom.value)
    ensures r.None? ==> forall p :: p in prices && p.itemCode == itemCode && p.priceList == priceList ==>
      uom.Some? && p.uom != uom.value
  {
    if prices == [] then None
    else
      var p := prices[0];
      if p.itemCode == itemCode && p.priceList == priceList && (uom.None? || p.uom == uom.value) then Some(p)
      else FirstPrice(prices[1..], itemCode, priceList, uom)
  }

  /** A price the variant query sees: an enabled variant of the template in
      the price list, with a rate. */
  predicate VariantPrice(p: ItemPrice, items: map<string, ItemRecord>, template: string, priceList: string)
  {
    p.itemCode in items && items[p.itemCode].variantOf == template && items[p.itemCode].disabled == 0 &&
    p.priceList == priceList && p.rate.Some?
  }

  /** `MIN(ip.price_list_rate)` over the variant prices. */
  function MinVariantRate(prices: seq<ItemPrice>, items: map<string, ItemRecord>, template: string, priceList: string): Option<real>
  {
    if prices == [] then None
    else
      var p := prices[|prices| - 1];
      var m := MinVariantRate(prices[..|prices| - 1], items, template, priceList);
      if !VariantPrice(p, items, template, priceList) then m
      else if m.Some? && m.value <= p.rate.value then m
      else p.rate
  }

  /** The minimum is one of the variant prices and no variant price is
      below it; there is none exactly when no variant has a price. */
  lemma {:induction false} MinVariantRateFacts(prices: seq<ItemPrice>, items: map<string, ItemRecord>, template: string, priceList: string)
    ensures var m := MinVariantRate(prices, items, template, priceList);
      (m.Some? ==> exists p :: p in prices && VariantPrice(p, items, template, priceList) && p.rate == m) &&
      (forall p :: p in prices && VariantPrice(p, items, template, priceList) ==> m.Some? && m.value <= p.rate.value)
  {
    if prices != [] {
      var front := prices[..|prices| - 1];
      MinVariantRateFacts(front, items, template, priceList);
      assert prices == front + [prices[|prices| - 1]];
    }
  }

  /** The derived template price: used only when the minimum is set and
      not 0. */
  function DerivedPrice(prices: seq<ItemPrice>, items: map<string, ItemRecord>, template: string, priceList: string): Option<real>
  {
    var m := MinVariantRate(prices, items, template, priceList);
    if m.Some? && m.value != 0.0 then m else None
  }

  /** `conversion_map[code].get(uom)`: the last conversion row of the item
      for that UOM (later rows overwrite earlier ones). */
  function LastFactor(conversions: seq<UomRow>, itemCode: string, uom: string): Option<real>
  {
    if conversions == [] then None
    else
      var c := conversions[|conversions| - 1];
      if c.parent == itemCode && c.uom != "" && c.uom == uom then c.factor
      else LastFactor(conversions[..|conversions| - 1], itemCode, uom)
  }

  /** `uom_map[code]`: the item's conversion rows in table order. */
  function UomsOf(conversions: seq<UomRow>, itemCode: string): seq<UomEntry>
  {
    if conversions == [] then []
    else
      var c := conversions[|conversions| - 1];
      UomsOf(conversions[..|conversions| - 1], itemCode) + (if c.parent == itemCode then [UomEntry(c.uom, c.factor)] else [])
  }

  /** `uom_prices_map[code]`: UOM to rate over the item's prices in the
      price list, later rows overwriting earlier ones. */
  function PriceMap(prices: seq<ItemPrice>, itemCode: string, priceList: string): JsMap<Option<real>>
  {
    if prices == [] then JsMap([], map[])
    else
      var p := prices[|prices| - 1];
      var m := PriceMap(prices[..|prices| - 1], itemCode, priceList);
      if p.itemCode == itemCode && p.priceList == priceList then MapSet(m, p.uom, p.rate) else m
  }

  /** The display rate and UOM of an item of the list. */
  function DisplayPrice(itemCode: string, stockUom: string, hasVariants: bool, cat: Catalog): (real, string)
  {
    var byStockUom := FirstPrice(cat.prices, itemCode, cat.priceList, Some(stockUom));
    var row := if byStockUom.Some? then byStockUom else FirstPrice(cat.prices, itemCode, cat.priceList, None);
    if row.Some? then
      var raw := OrNum(row.value.rate, 0.0);
      var priceUom := if row.value.uom != "" then row.value.uom else stockUom;
      if priceUom != "" && stockUom != "" && priceUom != stockUom then
        var cf := OrNum(LastFactor(cat.conversions, itemCode, priceUom), 0.0);
        if cf != 0.0 then (raw / cf, stockUom) else (raw, priceUom)
      else (raw, stockUom)
    else
      var derived := if hasVariants then DerivedPrice(cat.prices, cat.items, itemCode, cat.priceList) else None;
      if derived.Some? then (derived.value, stockUom) else (0.0, stockUom)
  }

  /** The enrichment of one item of `get_items`. */
  function Enriched(item: ListedItem, cat: Catalog): ListedItem
  {
    var (rate, uom) := DisplayPrice(item.itemCode, item.stockUom, item.hasVariants, cat);
    item.(
      pricing := Pricing(rate, rate, uom, uom, 1.0, rate),
      actualQty := if cat.warehouse != "" && item.isStockItem then BinActual(cat.bins, item.itemCode, cat.warehouse) else 0.0,
      warehouse := cat.warehouse,
      barcode := if item.itemCode in cat.barcodes then cat.barcodes[item.itemCode] else "",
      itemUoms := Filter(UomsOf(cat.conversions, item.itemCode), (u: UomEntry) => u.uom != item.stockUom),
      uomPrices := PriceMap(cat.prices, item.itemCode, cat.priceList))
  }

  /** The display price: a price in the stock UOM is shown as is; else the
      item's first price, divided by the conversion factor of its UOM when
      one is known and shown in its own UOM when not; with no price a
      template shows its cheapest enabled variant; otherwise 0. */
  lemma DisplayPriceFacts(itemCode: string, stockUom: string, hasVariants: bool, cat: Catalog)
    ensures var (rate, uom) := DisplayPrice(itemCode, stockUom, hasVariants, cat);
      var own := FirstPrice(cat.prices, itemCode, cat.priceList, Some(stockUom));
      var any := FirstPrice(cat.prices, itemCode, cat.priceList, None);
      (own.Some? ==> rate == OrNum(own.value.rate, 0.0) && uom == stockUom) &&
      (own.None? && any.Some? && any.value.uom != "" && stockUom != "" ==>
        var cf := OrNum(LastFactor(cat.conversions, itemCode, any.value.uom), 0.0);
        (cf != 0.0 ==> rate == OrNum(any.value.rate, 0.0) / cf && uom == stockUom) &&
        (cf == 0.0 ==> rate == OrNum(any.value.rate, 0.0) && uom == any.value.uom)) &&
      (own.None? && any.None? && hasVariants && DerivedPrice(cat.prices, cat.items, itemCode, cat.priceList).Some? ==>
        rate == DerivedPrice(cat.prices, cat.items, itemCode, cat.priceList).value && uom == stockUom) &&
      (any.None? && (!hasVariants || DerivedPrice(cat.prices, cat.items, itemCode, cat.priceList).None?) ==>
        rate == 0.0 && uom == stockUom)
  {
    var own := FirstPrice(cat.prices, itemCode, cat.priceList, Some(stockUom));
    var any := FirstPrice(cat.prices, itemCode, cat.priceList, None);
    if own.None? && any.Some? {
      assert any.value.uom != stockUom;
    }
  }

  /** The rate fields of an enriched item agree, its conversion factor is
      1, its stock comes from the bin only for a stock item with a
      warehouse, and its UOM list never repeats the stock UOM yet keeps
      every other UOM row of the item, in order. */
  lemma EnrichedFacts(item: ListedItem, cat: Catalog)
    ensures var e := Enriched(item, cat);
      e.pricing.rate == e.pricing.priceListRate == e.pricing.priceListRatePriceUom &&
      e.pricing.uom == e.pricing.priceUom && e.pricing.conversionFactor == 1.0 &&
      (cat.warehouse != "" && item.isStockItem ==> e.actualQty == BinActual(cat.bins, item.itemCode, cat.warehouse)) &&
      (cat.warehouse == "" || !item.isStockItem ==> e.actualQty == 0.0) &&
      (forall u :: u in e.itemUoms <==> u in UomsOf(cat.conversions, item.itemCode) && u.uom != item.stockUom) &&
      e.itemCode == item.itemCode && e.stockUom == item.stockUom
  {
    FilterMembers(UomsOf(cat.conversions, item.itemCode), (u: UomEntry) => u.uom != item.stockUom);
  }

  // ---------------------------------------------------------------------
  // The variant list

  /** A variant of `get_item_variants`, with the fields its enrichment
      writes. */
  datatype Variant = Variant(
    itemCode: string, stockUom: string, rate: real, actualQty: real, warehouse: string,
    itemUoms: seq<UomEntry>, uomPrices: JsMap<Option<real>>)

  function Get(m: JsMap<Option<real>>, key: string): Option<real>
  {
    if key in m.vals then m.vals[key] else None
  }

  /** `next(iter(m.values()))`. */
  function FirstValue(m: JsMap<Option<real>>): Option<real>
  {
    if |m.keys| > 0 && m.keys[0] in m.vals then m.vals[m.keys[0]] else None
  }

  /** A variant's rate: its stock-UOM price, else its first listed price,
      else 0 (a price of 0 counts as missing). */
  function VariantRate(m: JsMap<Option<real>>, stockUom: string): real
  {
    var price := Get(m, stockUom);
    var price := if !(price.Some? && price.value != 0.0) && |m.keys| > 0 then FirstValue(m) else price;
    OrNum(price, 0.0)
  }

  function EnrichedVariant(v: Variant, cat: Catalog): Variant
  {
    var m := PriceMap(cat.prices, v.itemCode, cat.priceList);
    v.(
      rate := VariantRate(m, v.stockUom),
      actualQty := if cat.warehouse != "" then BinActual(cat.bins, v.itemCode, cat.warehouse) else 0.0,
      warehouse := cat.warehouse,
      itemUoms := Filter(UomsOf(cat.conversions, v.itemCode), (u: UomEntry) => u.uom != v.stockUom),
      uomPrices := m)
  }

  /** The price map is well formed and holds, for each UOM priced for the
      item in the price list, the last such row's rate. */
  lemma {:induction false} PriceMapFacts(prices: seq<ItemPrice>, itemCode: string, priceList: string)
    ensures var m := PriceMap(prices, itemCode, priceList);
      JsMapValid(m) &&
      (forall u :: u in m.vals <==> exists p :: p in prices && p.itemCode == itemCode && p.priceList == priceList && p.uom == u)
  {
    if prices != [] {
      var front := prices[..|prices| - 1];
      PriceMapFacts(front, itemCode, priceList);
      var p := prices[|prices| - 1];
      if p.itemCode == itemCode && p.priceList == priceList {
        MapSetFacts(PriceMap(front, itemCode, priceList), p.uom, p.rate);
      }
      assert prices == front + [p];
    }
  }

  /** A variant's rate is its non-zero stock-UOM price when it has one,
      otherwise its first listed price (0 when that is missing), or 0 with
      no prices; its stock comes from the bin whenever the profile has a
      warehouse, and its UOM list omits the stock UOM. */
  lemma EnrichedVariantFacts(v: Variant, cat: Catalog)
    ensures var e := EnrichedVariant(v, cat);
      var m := PriceMap(cat.prices, v.itemCode, cat.priceList);
      (Get(m, v.stockUom).Some? && Get(m, v.stockUom).value != 0.0 ==> e.rate == Get(m, v.stockUom).value) &&
      (!(Get(m, v.stockUom).Some? && Get(m, v.stockUom).value != 0.0) && m.keys != [] ==> e.rate == OrNum(FirstValue(m), 0.0)) &&
      (m.keys == [] ==> e.rate == 0.0) &&
      (m.keys == [] <==> forall p :: p in cat.prices ==> p.itemCode != v.itemCode || p.priceList != cat.priceList) &&
      (cat.warehouse != "" ==> e.actualQty == BinActual(cat.bins, v.itemCode, cat.warehouse)) &&
      (cat.warehouse == "" ==> e.actualQty == 0.0) &&
      (forall u :: u in e.itemUoms ==> u.uom != v.stockUom)
  {
    var m := PriceMap(cat.prices, v.itemCode, cat.priceList);
    PriceMapFacts(cat.prices, v.itemCode, cat.priceList);
    FilterMembers(UomsOf(cat.conversions, v.itemCode), (u: UomEntry) => u.uom != v.stockUom);
    if m.keys != [] {
      assert m.keys[0] in m.vals;
    }
    if exists p :: p in cat.prices && p.itemCode == v.itemCode && p.priceList == cat.priceList {
      var p :| p in cat.prices && p.itemCode == v.itemCode && p.priceList == cat.priceList;
      assert p.uom in m.vals;
      assert p.uom in m.keys;
    }
  }
}

module ItemApi {
  import opened Common
  import opened ItemApiModel

  /** The batch loop of `get_item_detail`. */
  method CollectBatches(batches: seq<BatchQty>, docs: map<string, BatchDoc>, today: string) returns (r: Result<seq<BatchOffer>>)
    ensures r == OfferedBatches(batches, docs, today)
  {
    var offered: seq<BatchOffer> := [];
    var i := 0;
    while i < |batches|
      invariant 0 <= i <= |batches|
      invariant OfferedBatches(batches[..i], docs, today) == Ok(offered)
    {
      assert batches[..i + 1][..i] == batches[..i];
      var b := batches[i];
      if b.qty > 0.0 && b.batchNo != "" {
        if b.batchNo !in docs {
          OfferedBatchesErrSticks(batches, docs, today, i + 1);
          return Err("Batch " + b.batchNo + " not found");
        }
        var d := docs[b.batchNo];
        if Unexpired(d.expiry, today) && d.disabled == 0 {
          offered := offered + [BatchOffer(b.batchNo, b.qty, d.expiry, d.manufacturing)];
        }
      }
      i := i + 1;
    }
    assert batches[..|batches|] == batches;
    return Ok(offered);
  }

  /** A missing Batch document ends the batch loop with that error. */
  lemma {:induction false} OfferedBatchesErrSticks(batches: seq<BatchQty>, docs: map<string, BatchDoc>, today: string, k: nat)
    requires k <= |batches| && OfferedBatches(batches[..k], docs, today).Err?
    ensures OfferedBatches(batches, docs, today) == OfferedBatches(batches[..k], docs, today)
  {
    if k < |batches| {
      assert batches[..|batches| - 1][..k] == batches[..k];
      OfferedBatchesErrSticks(batches[..|batches| - 1], docs, today, k);
    } else {
      assert batches[..k] == batches;
    }
  }

  /** The stock UOM search of `get_item_detail`, stopping at the first
      match. */
  method AddStockUom(uoms: seq<UomEntry>, stockUom: string) returns (r: seq<UomEntry>)
    ensures r == WithStockUom(uoms, stockUom)
  {
    r := uoms;
    if stockUom != "" {
      var stockUomExists := false;
      var i := 0;
      while i < |uoms|
        invariant 0 <= i <= |uoms|
        invariant !stockUomExists ==> forall k :: 0 <= k < i ==> uoms[k].uom != stockUom
        invariant stockUomExists ==> HasUom(uoms, stockUom)
      {
        if uoms[i].uom == stockUom {
          assert uoms[i] in uoms;
          stockUomExists := true;
          break;
        }
        i := i + 1;
      }
      if !stockUomExists {
        r := uoms + [UomEntry(stockUom, Some(1.0))];
      }
    }
  }

  /** The enrichment loop of `get_items`, rewriting each item of the list
      in place. */
  method EnrichItems(items: array<ListedItem>, cat: Catalog)
    modifies items
    ensures forall i :: 0 <= i < items.Length ==> items[i] == Enriched(old(items[i]), cat)
  {
    var i := 0;
    while i < items.Length
      invariant 0 <= i <= items.Length
      invariant forall k :: 0 <= k < i ==> items[k] == Enriched(old(items[k]), cat)
      invariant forall k :: i <= k < items.Length ==> items[k] == old(items[k])
    {
      var item := items[i];
      var (rate, uom) := DisplayPrice(item.itemCode, item.stockUom, item.hasVariants, cat);
      var actual := 0.0;
      if cat.warehouse != "" && item.isStockItem {
        actual := BinActual(cat.bins, item.itemCode, cat.warehouse);
      }
      var barcode := if item.itemCode in cat.barcodes then cat.barcodes[item.itemCode] else "";
      items[i] := item.(
        pricing := Pricing(rate, rate, uom, uom, 1.0, rate),
        actualQty := actual,
        warehouse := cat.warehouse,
        barcode := barcode,
        itemUoms := Filter(UomsOf(cat.conversions, item.itemCode), (u: UomEntry) => u.uom != item.stockUom),
        uomPrices := PriceMap(cat.prices, item.itemCode, cat.priceList));
      i := i + 1;
    }
  }

  /** The enrichment loop of `get_item_variants`, in place. */
  method EnrichVariants(variants: array<Variant>, cat: Catalog)
    modifies variants
    ensures forall i :: 0 <= i < variants.Length ==> variants[i] == EnrichedVariant(old(variants[i]), cat)
  {
    var i := 0;
    while i < variants.Length
      invariant 0 <= i <= variants.Length
      invariant forall k :: 0 <= k < i ==> variants[k] == EnrichedVariant(old(variants[k]), cat)
      invariant forall k :: i <= k < variants.Length ==> variants[k] == old(variants[k])
    {
      var v := variants[i];
      var prices := PriceMap(cat.prices, v.itemCode, cat.priceList);
      var price := Get(prices, v.stockUom);
      if !(price.Some? && price.value != 0.0) && |prices.keys| > 0 {
        price := FirstValue(prices);
      }
      var actual := 0.0;
      if cat.warehouse != "" {
        actual := BinActual(cat.bins, v.itemCode, cat.warehouse);
      }
      variants[i] := v.(
        rate := OrNum(price, 0.0),
        actualQty := actual,
        warehouse := cat.warehouse,
        itemUoms := Filter(UomsOf(cat.conversions, v.itemCode), (u: UomEntry) => u.uom != v.stockUom),
        uomPrices := prices);
      i := i + 1;
    }
  }

  /** `uom_map.get(code, [])`. */
  function ListedUoms(uomMap: map<string, seq<UomEntry>>, code: string): seq<UomEntry>
  {
    if code in uomMap then uomMap[code] else []
  }

  /** `conversion_map[code].get(uom)`. */
  function StoredFactor(factors: map<(string, string), Option<real>>, code: string, uom: string): Option<real>
  {
    if (code, uom) in factors then factors[(code, uom)] else None
  }

  /** One row more in `uom_map`. */
  lemma UomsStep(uomMap: map<string, seq<UomEntry>>, before: seq<UomRow>, row: UomRow)
    requires forall code :: ListedUoms(uomMap, code) == UomsOf(before, code)
    ensures var next := uomMap[row.parent := ListedUoms(uomMap, row.parent) + [UomEntry(row.uom, row.factor)]];
      forall code :: ListedUoms(next, code) == UomsOf(before + [row], code)
  {
    var after := before + [row];
    assert after[..|after| - 1] == before;
  }

  /** One row more in `conversion_map`. */
  lemma FactorsStep(factors: map<(string, string), Option<real>>, before: seq<UomRow>, row: UomRow)
    requires forall code, uom :: StoredFactor(factors, code, uom) == LastFactor(before, code, uom)
    ensures var next := if row.uom != "" then factors[(row.parent, row.uom) := row.factor] else factors;
      forall code, uom :: StoredFactor(next, code, uom) == LastFactor(before + [row], code, uom)
  {
    var after := before + [row];
    assert after[..|after| - 1] == before;
  }

  /** The loop filling `uom_map` and `conversion_map` in `get_items`. */
  method BuildConversionMaps(conversions: seq<UomRow>)
    returns (uomMap: map<string, seq<UomEntry>>, factors: map<(string, string), Option<real>>)
    ensures forall code :: ListedUoms(uomMap, code) == UomsOf(conversions, code)
    ensures forall code, uom :: StoredFactor(factors, code, uom) == LastFactor(conversions, code, uom)
  {
    uomMap, factors := map[], map[];
    var i := 0;
    while i < |conversions|
      invariant 0 <= i <= |conversions|
      invariant forall code :: ListedUoms(uomMap, code) == UomsOf(conversions[..i], code)
      invariant forall code, uom :: StoredFactor(factors, code, uom) == LastFactor(conversions[..i], code, uom)
    {
      var row := conversions[i];
      assert conversions[..i + 1] == conversions[..i] + [row];
      ghost var uomsBefore, factorsBefore := uomMap, factors;
      uomMap := uomMap[row.parent := ListedUoms(uomMap, row.parent) + [UomEntry(row.uom, row.factor)]];
      if row.uom != "" {
        factors := factors[(row.parent, row.uom) := row.factor];
      }
      UomsStep(uomsBefore, conversions[..i], row);
      FactorsStep(factorsBefore, conversions[..i], row);
      i := i + 1;
    }
    assert conversions[..|conversions|] == conversions;
  }
}
