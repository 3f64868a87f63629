// The offline worker (offline.worker.js): it owns the cached item and
// customer tables and the invoice queue, and answers one request message
// with one reply. The server ping, the clock and the database are
// parameters or fields.

module OfflineWorkerModel {
  import opened Common
  import opened OfflineSyncModel

  /** One element of an `item_barcode` array: an object with a `barcode`
      field, a bare value, or `null` (whose `.barcode` throws). */
  datatype BarcodeElem = ElemObject(barcode: Option<string>) | ElemValue(value: string) | ElemNull

  datatype ItemBarcode = NoItemBarcode | BarcodeArray(elems: seq<BarcodeElem>) | SingleBarcode(value: string)

  /** An item row, as the server sends it and as the `items` table keeps it
      (keyed by `item_code`). */
  datatype ItemRow = ItemRow(code: string, name: Option<string>, barcode: Option<string>, itemBarcode: ItemBarcode,
                             barcodes: Option<seq<string>>, actualQty: JsNum, stockQty: JsNum, warehouse: Option<string>,
                             rate: JsNum, priceListRate: JsNum)

  datatype Customer = Customer(name: Option<string>, customerName: Option<string>, mobileNo: Option<string>)

  datatype StockUpdate = StockUpdate(itemCode: Option<string>, warehouse: Option<string>, actualQty: JsNum, stockQty: JsNum)

  /** `isOffline(browserOnline)` against the worker's two flags. */
  predicate WorkerOffline(manualOffline: bool, serverOnline: bool, browserOnline: bool)
  {
    manualOffline || !browserOnline || !serverOnline
  }

  /** The barcodes of an `item_barcode` array; `None` when an element is
      `null`. */
  function ArrayBarcodes(elems: seq<BarcodeElem>): (r: Option<seq<string>>)
    ensures r.None? <==> exists i :: 0 <= i < |elems| && elems[i].ElemNull?
    ensures r.Some? ==> forall b :: b in r.value ==> b != ""
  {
    if elems == [] then Some([])
    else
      var rest := ArrayBarcodes(elems[..|elems| - 1]);
      var e := elems[|elems| - 1];
      if rest.None? || e.ElemNull? then None
      else
        var b := if e.ElemObject? then (if e.barcode.Some? then e.barcode.value else "") else e.value;
        Some(rest.value + (if b == "" then [] else [b]))
  }

  /** The barcode extraction of `cacheItemsFromServer`; `None` when it
      throws. */
  function ExtractBarcodes(it: ItemRow): Option<seq<string>>
  {
    if Truthy(it.barcode) then Some([it.barcode.value])
    else if it.itemBarcode.BarcodeArray? then ArrayBarcodes(it.itemBarcode.elems)
    else if it.itemBarcode.SingleBarcode? && it.itemBarcode.value != "" then Some([it.itemBarcode.value])
    else if it.barcodes.Some? then it.barcodes
    else Some([])
  }

  /** The order of preference: `barcode`, then `item_barcode`, then an
      existing `barcodes` array, then nothing; array elements lose their
      falsy values. */
  lemma ExtractPriority(it: ItemRow)
    ensures Truthy(it.barcode) ==> ExtractBarcodes(it) == Some([it.barcode.value])
    ensures !Truthy(it.barcode) && it.itemBarcode.BarcodeArray? ==>
      ExtractBarcodes(it) == ArrayBarcodes(it.itemBarcode.elems)
    ensures !Truthy(it.barcode) && it.itemBarcode.SingleBarcode? && it.itemBarcode.value != "" ==>
      ExtractBarcodes(it) == Some([it.itemBarcode.value])
    ensures !Truthy(it.barcode) && (it.itemBarcode.NoItemBarcode? || it.itemBarcode == SingleBarcode("")) ==>
      ExtractBarcodes(it) == Some(Coalesce(it.barcodes, []))
    ensures forall e :: ExtractBarcodes(it) == Some(e) && !it.barcodes.Some? ==> forall b :: b in e ==> b != ""
  {
  }

  /** `items.map(...)` of `cacheItemsFromServer`; `None` when an item's
      extraction throws. */
  function Processed(items: seq<ItemRow>): (r: Option<seq<ItemRow>>)
    ensures r.Some? ==>
      |r.value| == |items| &&
      forall i :: 0 <= i < |items| ==> r.value[i] == items[i].(barcodes := ExtractBarcodes(items[i]))
    ensures r.None? <==> exists i :: 0 <= i < |items| && ExtractBarcodes(items[i]).None?
  {
    if items == [] then Some([])
    else
      var rest := Processed(items[..|items| - 1]);
      var it := items[|items| - 1];
      if rest.None? || ExtractBarcodes(it).None? then None
      else Some(rest.value + [it.(barcodes := ExtractBarcodes(it))])
  }

  /** `bulkPut` of item rows: each goes in under its code. */
  function PutItems(table: JsMap<ItemRow>, rows: seq<ItemRow>): JsMap<ItemRow>
  {
    if rows == [] then table
    else var last := rows[|rows| - 1]; MapSet(PutItems(table, rows[..|rows| - 1]), last.code, last)
  }

  /** `bulkPut` of customers, keyed by `name`. */
  function PutCustomers(table: JsMap<Customer>, rows: seq<Customer>): JsMap<Customer>
  {
    if rows == [] then table
    else
      var last := rows[|rows| - 1];
      MapSet(PutCustomers(table, rows[..|rows| - 1]), Coalesce(last.name, ""), last)
  }

  /** A `bulkPut` of items keeps the table well formed, and every code of
      the batch becomes a key while every old key stays. */
  lemma {:induction false} PutItemsValid(table: JsMap<ItemRow>, rows: seq<ItemRow>)
    requires JsMapValid(table)
    ensures JsMapValid(PutItems(table, rows))
    ensures forall i :: 0 <= i < |rows| ==> rows[i].code in PutItems(table, rows).vals
    ensures forall k :: k in table.vals ==> k in PutItems(table, rows).vals
    decreases |rows|
  {
    if rows != [] {
      PutItemsValid(table, rows[..|rows| - 1]);
      MapSetFacts(PutItems(table, rows[..|rows| - 1]), rows[|rows| - 1].code, rows[|rows| - 1]);
    }
  }

  /** The last row of the batch written under a code is the one stored
      (last write wins). */
  lemma {:induction false} PutItemsLatest(table: JsMap<ItemRow>, rows: seq<ItemRow>, i: nat)
    requires JsMapValid(table)
    requires i < |rows| && forall j :: i < j < |rows| ==> rows[j].code != rows[i].code
    ensures rows[i].code in PutItems(table, rows).vals && PutItems(table, rows).vals[rows[i].code] == rows[i]
    decreases |rows|
  {
    var front := rows[..|rows| - 1];
    PutItemsValid(table, front);
    MapSetFacts(PutItems(table, front), rows[|rows| - 1].code, rows[|rows| - 1]);
    if i < |rows| - 1 {
      assert front[i] == rows[i];
      assert forall j :: i < j < |front| ==> front[j] == rows[j];
      PutItemsLatest(table, front, i);
    }
  }

  /** A key no row of the batch carries keeps its row, and is a key
      afterwards only if it was one before. */
  lemma {:induction false} PutItemsUntouched(table: JsMap<ItemRow>, rows: seq<ItemRow>, k: string)
    requires JsMapValid(table)
    requires forall i :: 0 <= i < |rows| ==> rows[i].code != k
    ensures k in PutItems(table, rows).vals <==> k in table.vals
    ensures k in table.vals ==> PutItems(table, rows).vals[k] == table.vals[k]
    decreases |rows|
  {
    if rows != [] {
      var front := rows[..|rows| - 1];
      PutItemsValid(table, front);
      MapSetFacts(PutItems(table, front), rows[|rows| - 1].code, rows[|rows| - 1]);
      assert forall i :: 0 <= i < |front| ==> front[i] == rows[i];
      PutItemsUntouched(table, front, k);
    }
  }

  lemma {:induction false} PutCustomersValid(table: JsMap<Customer>, rows: seq<Customer>)
    requires JsMapValid(table)
    ensures JsMapValid(PutCustomers(table, rows))
  {
    if rows != [] {
      PutCustomersValid(table, rows[..|rows| - 1]);
      MapSetFacts(PutCustomers(table, rows[..|rows| - 1]), Coalesce(rows[|rows| - 1].name, ""), rows[|rows| - 1]);
    }
  }

  /** The `barcodes` multi-entry index lookup. */
  predicate BarcodeHit(term: string, it: ItemRow)
  {
    term in Coalesce(it.barcodes, [])
  }

  /** `startsWithIgnoreCase` on `item_code` or `item_name`. */
  predicate PrefixHit(term: string, it: ItemRow)
  {
    StartsWith(ToLower(it.code), term) || (it.name.Some? && StartsWith(ToLower(it.name.value), term))
  }

  /** `searchCachedItems` over the table's rows in key order. The term is
      lower-cased; the barcode index is matched with the lower-cased term. */
  function SearchItems(rows: seq<ItemRow>, searchTerm: string, limit: nat): seq<ItemRow>
  {
    var term := ToLower(searchTerm);
    if term == "" then Take(rows, limit)
    else
      var byBarcode := Take(Filter(rows, it => BarcodeHit(term, it)), limit);
      if |byBarcode| > 0 then byBarcode else Take(Filter(rows, it => PrefixHit(term, it)), limit)
  }

  /** Never more than `limit` rows; an empty term gives the first rows;
      exact barcode hits win over prefix hits and come alone. */
  lemma SearchItemsFacts(rows: seq<ItemRow>, searchTerm: string, limit: nat)
    ensures var r := SearchItems(rows, searchTerm, limit);
      |r| <= limit && (ToLower(searchTerm) == "" ==> r == Take(rows, limit))
    ensures var term := ToLower(searchTerm); var r := SearchItems(rows, searchTerm, limit);
      term != "" ==> forall it :: it in r ==> it in rows && (BarcodeHit(term, it) || PrefixHit(term, it))
    ensures var term := ToLower(searchTerm); var r := SearchItems(rows, searchTerm, limit);
      term != "" && limit > 0 && (exists it :: it in rows && BarcodeHit(term, it)) ==>
        |r| > 0 && forall it :: it in r ==> BarcodeHit(term, it)
  {
    var term := ToLower(searchTerm);
    FilterMembers(rows, it => BarcodeHit(term, it));
    FilterMembers(rows, it => PrefixHit(term, it));
    var b := Filter(rows, it => BarcodeHit(term, it));
    var p := Filter(rows, it => PrefixHit(term, it));
    forall it | it in Take(b, limit)
      ensures it in b
    {
    }
    forall it | it in Take(p, limit)
      ensures it in p
    {
    }
    if term != "" && limit > 0 && (exists it :: it in rows && BarcodeHit(term, it)) {
      var w :| w in rows && BarcodeHit(term, w);
      assert w in b;
    }
  }

  predicate CustomerHit(term: string, c: Customer)
  {
    Contains(ToLower(Coalesce(OrStr(c.customerName, Some("")), "")), term) ||
    Contains(ToLower(Coalesce(OrStr(c.mobileNo, Some("")), "")), term) ||
    Contains(ToLower(Coalesce(OrStr(c.name, Some("")), "")), term)
  }

  /** `searchCachedCustomers`. */
  function SearchCustomers(rows: seq<Customer>, searchTerm: string, limit: nat): seq<Customer>
  {
    var term := ToLower(searchTerm);
    if term == "" then Take(rows, limit) else Take(Filter(rows, c => CustomerHit(term, c)), limit)
  }

  /** Every customer returned for a term matches it in name, mobile or id,
      and there are at most `limit` of them. */
  lemma SearchCustomersFacts(rows: seq<Customer>, searchTerm: string, limit: nat)
    ensures var r := SearchCustomers(rows, searchTerm, limit);
      |r| <= limit && (ToLower(searchTerm) == "" ==> r == Take(rows, limit))
    ensures var term := ToLower(searchTerm); var r := SearchCustomers(rows, searchTerm, limit);
      term != "" ==> forall c :: c in r ==> c in rows && CustomerHit(term, c)
  {
    var term := ToLower(searchTerm);
    FilterMembers(rows, c => CustomerHit(term, c));
    var f := Filter(rows, c => CustomerHit(term, c));
    forall c | c in Take(f, limit)
      ensures c in f
    {
    }
  }

  /** One update written onto a cached item. */
  function StockApplied(it: ItemRow, u: StockUpdate): (r: ItemRow)
    ensures r.code == it.code
    ensures r.actualQty == (if u.actualQty != Undef then u.actualQty else u.stockQty)
    ensures r.stockQty == (if u.stockQty != Undef then u.stockQty else u.actualQty)
    ensures r.warehouse == OrStr(u.warehouse, it.warehouse)
  {
    it.(actualQty := if u.actualQty != Undef then u.actualQty else u.stockQty,
        stockQty := if u.stockQty != Undef then u.stockQty else u.actualQty,
        warehouse := OrStr(u.warehouse, it.warehouse))
  }

  /** An update that `updateStockQuantities` writes: it names a code that
      is cached. */
  predicate Applies(table: JsMap<ItemRow>, u: StockUpdate)
  {
    Truthy(u.itemCode) && u.itemCode.value in table.vals
  }

  /** The table after the updates, in order. */
  function StockUpdated(table: JsMap<ItemRow>, us: seq<StockUpdate>): JsMap<ItemRow>
  {
    if us == [] then table
    else
      var t := StockUpdated(table, us[..|us| - 1]);
      var u := us[|us| - 1];
      if Applies(t, u) then MapSet(t, u.itemCode.value, StockApplied(t.vals[u.itemCode.value], u)) else t
  }

  /** The number of updates written. */
  function UpdatedCount(table: JsMap<ItemRow>, us: seq<StockUpdate>): nat
  {
    if us == [] then 0
    else UpdatedCount(table, us[..|us| - 1]) + (if Applies(table, us[|us| - 1]) then 1 else 0)
  }

  /** The updates never add or drop a cached item, so an update applies
      exactly when its code was cached to begin with; the count is the
      number of such updates. */
  lemma {:induction false} StockUpdatedKeys(table: JsMap<ItemRow>, us: seq<StockUpdate>)
    requires JsMapValid(table)
    ensures var t := StockUpdated(table, us);
      JsMapValid(t) && t.keys == table.keys && t.vals.Keys == table.vals.Keys
    ensures UpdatedCount(table, us) == |Filter(us, u => Applies(table, u))|
  {
    if us != [] {
      StockUpdatedKeys(table, us[..|us| - 1]);
      var t := StockUpdated(table, us[..|us| - 1]);
      var u := us[|us| - 1];
      assert Applies(t, u) == Applies(table, u);
      if Applies(t, u) {
        MapSetFacts(t, u.itemCode.value, StockApplied(t.vals[u.itemCode.value], u));
      }
    }
  }

  /** An item no applicable update names keeps its row. */
  lemma {:induction false} StockUpdatedOthers(table: JsMap<ItemRow>, us: seq<StockUpdate>, code: string)
    requires JsMapValid(table) && code in table.vals
    requires forall i :: 0 <= i < |us| ==> us[i].itemCode != Some(code)
    ensures code in StockUpdated(table, us).vals && StockUpdated(table, us).vals[code] == table.vals[code]
  {
    if us != [] {
      StockUpdatedOthers(table, us[..|us| - 1], code);
      StockUpdatedKeys(table, us[..|us| - 1]);
      var t := StockUpdated(table, us[..|us| - 1]);
      var u := us[|us| - 1];
      if Applies(t, u) {
        MapSetFacts(t, u.itemCode.value, StockApplied(t.vals[u.itemCode.value], u));
      }
    }
  }

  datatype CacheStats = CacheStats(items: nat, customers: nat, queuedInvoices: nat, cacheReady: bool, lastSync: Option<int>)

  /** `getCacheStats`; `failed` stands for a database error. */
  function Stats(itemCount: nat, customerCount: nat, queue: seq<QueueEntry>, settings: map<string, int>, failed: bool): (s: CacheStats)
    ensures failed ==> s == CacheStats(0, 0, 0, false, None)
    ensures !failed ==> s.items == itemCount && s.queuedInvoices == |Pending(queue)| && (s.cacheReady <==> itemCount > 0)
    ensures !failed ==> (s.lastSync.Some? <==> "items_last_sync" in settings && settings["items_last_sync"] != 0)
  {
    if failed then CacheStats(0, 0, 0, false, None)
    else
      var last := if "items_last_sync" in settings && settings["items_last_sync"] != 0 then Some(settings["items_last_sync"]) else None;
      CacheStats(itemCount, customerCount, |Pending(queue)|, itemCount > 0, last)
  }

  /** The queued-invoice count of the stats never exceeds the queue, is 0
      when every entry is synced, and grows by one with each unsynced
      invoice queued. */
  lemma StatsFacts(itemCount: nat, customerCount: nat, queue: seq<QueueEntry>, settings: map<string, int>,
                   failed: bool, e: QueueEntry)
    ensures Stats(itemCount, customerCount, queue, settings, failed).queuedInvoices <= |queue|
    ensures (forall x :: x in queue ==> x.synced) ==> Stats(itemCount, customerCount, queue, settings, failed).queuedInvoices == 0
    ensures !failed && !e.synced ==>
      Stats(itemCount, customerCount, queue + [e], settings, failed).queuedInvoices ==
        Stats(itemCount, customerCount, queue, settings, failed).queuedInvoices + 1
  {
    PendingMembers(queue);
    PendingSnoc(queue, e);
    if forall x :: x in queue ==> x.synced {
      NothingPending(queue);
    }
  }

  lemma {:induction false} NothingPending(queue: seq<QueueEntry>)
    requires forall x :: x in queue ==> x.synced
    ensures Pending(queue) == []
  {
    if queue != [] {
      assert forall x :: x in queue[..|queue| - 1] ==> x in queue;
      NothingPending(queue[..|queue| - 1]);
    }
  }

  /** A request message; `Unknown` carries any other `type`. The ping's
      outcome travels with `PingServer`: `None` when the fetch throws. */
  datatype Request =
    | PingServer(responseOk: Option<bool>)
    | CheckOffline(browserOnline: bool)
    | GetInvoiceCount
    | GetInvoices
    | SaveInvoice(invoiceData: InvoiceData)
    | SearchItemsRequest(searchTerm: string, limit: nat)
    | SearchCustomersRequest(searchTerm: string, limit: nat)
    | CacheItems(items: seq<ItemRow>)
    | CacheCustomers(customers: seq<Customer>)
    | IsCacheReady
    | GetCacheStats(statsFail: bool)
    | DeleteInvoice(invoiceId: nat)
    | SetManualOffline(value: bool)
    | UpdateStockQuantities(stockUpdates: Option<seq<StockUpdate>>)
    | Unknown(kind: string)

  datatype Answer =
    | Flag(b: bool)
    | Count(n: nat)
    | Entries(entries: seq<QueueEntry>)
    | SavedId(savedId: nat)
    | ItemRows(rows: seq<ItemRow>)
    | CustomerRows(customers: seq<Customer>)
    | StatsAnswer(stats: CacheStats)
    | Done
    | Failure(message: string)

  datatype ReplyKind = Success | Error

  datatype Reply = Reply(kind: ReplyKind, id: nat, payload: Answer)

  /** The message types whose handlers only read the worker's state. */
  predicate IsQuery(m: Request)
  {
    m.Unknown? || m.CheckOffline? || m.GetInvoiceCount? || m.GetInvoices? || m.SearchItemsRequest? ||
    m.SearchCustomersRequest? || m.IsCacheReady? || m.GetCacheStats?
  }

  /** The requests the worker answers with `ERROR`. */
  predicate Fails(m: Request)
  {
    m.Unknown? || (m.SaveInvoice? && !HasItems(m.invoiceData)) || (m.CacheItems? && Processed(m.items).None?)
  }
}

module OfflineWorker {
  import opened Common
  import opened OfflineSyncModel
  import opened OfflineWorkerModel

  class Worker {
    var manualOffline: bool
    var serverOnline: bool
    var items: JsMap<ItemRow>
    var customers: JsMap<Customer>
    var queue: seq<QueueEntry>
    var nextId: nat
    var settings: map<string, int>

    ghost predicate Valid()
      reads this`items, this`customers
    {
      JsMapValid(items) && JsMapValid(customers)
    }

    constructor()
      ensures Valid() && !manualOffline && serverOnline && items == JsMap([], map[]) && customers == JsMap([], map[])
      ensures queue == [] && settings == map[]
    {
      manualOffline := false;
      serverOnline := true;
      items := JsMap([], map[]);
      customers := JsMap([], map[]);
      queue := [];
      nextId := 0;
      settings := map[];
    }

    /** `pingServer`: the flag follows `response.ok`, and a throwing fetch
        counts as offline. */
    method Ping(responseOk: Option<bool>) returns (online: bool)
      modifies this`serverOnline
      ensures online == serverOnline == (responseOk == Some(true))
    {
      serverOnline := responseOk.Some? && responseOk.value;
      online := serverOnline;
    }

    /** `saveOfflineInvoice`: no stock is touched. */
    method SaveOfflineInvoice(d: InvoiceData, now: int) returns (r: Result<nat>)
      modifies this`queue, this`nextId
      ensures !HasItems(d) ==> r == Err("Cannot save empty invoice") && unchanged(this)
      ensures HasItems(d) ==>
        r == Ok(old(nextId)) && queue == old(queue) + [NewEntry(old(nextId), d, now)] && nextId == old(nextId) + 1
    {
      if d.items.None? || |d.items.value| == 0 {
        return Err("Cannot save empty invoice");
      }
      queue := queue + [NewEntry(nextId, d, now)];
      r := Ok(nextId);
      nextId := nextId + 1;
    }

    /** `cacheItemsFromServer`: every item is processed before anything is
        written, so an item that throws leaves the table as it was. */
    method CacheItemsFromServer(rows: seq<ItemRow>, now: int) returns (r: Result<nat>)
      requires Valid()
      modifies this`items, this`settings
      ensures Valid()
      ensures Processed(rows).None? ==> r.Err? && unchanged(this`items, this`settings)
      ensures Processed(rows).Some? ==>
        r == Ok(|rows|) && items == PutItems(old(items), Processed(rows).value) &&
        settings == old(settings)["items_last_sync" := now]
    {
      var processed := ProcessRows(rows);
      if processed.None? {
        return Err("Cannot read properties of null (reading 'barcode')");
      }
      PutItemsValid(items, processed.value);
      PutAllItems(processed.value);
      settings := settings["items_last_sync" := now];
      return Ok(|rows|);
    }

    /** The `bulkPut` of the processed items, one after another. */
    method PutAllItems(list: seq<ItemRow>)
      modifies this`items
      ensures items == PutItems(old(items), list)
    {
      var i := 0;
      ghost var t0 := items;
      while i < |list|
        invariant 0 <= i <= |list| && items == PutItems(t0, list[..i])
      {
        assert list[..i + 1][..i] == list[..i];
        items := MapSet(items, list[i].code, list[i]);
        i := i + 1;
      }
      assert list[..i] == list;
    }

    /** `cacheCustomersFromServer`. */
    method CacheCustomersFromServer(rows: seq<Customer>, now: int) returns (n: nat)
      requires Valid()
      modifies this`customers, this`settings
      ensures Valid() && n == |rows| && customers == PutCustomers(old(customers), rows)
      ensures settings == old(settings)["customers_last_sync" := now]
    {
      PutCustomersValid(customers, rows);
      customers := PutCustomers(customers, rows);
      settings := settings["customers_last_sync" := now];
      n := |rows|;
    }

    /** `updateStockQuantities`. */
    method UpdateStockQuantities(us: Option<seq<StockUpdate>>) returns (n: nat)
      requires Valid()
      modifies this`items
      ensures Valid()
      ensures us.None? ==> n == 0 && items == old(items)
      ensures us.Some? ==> items == StockUpdated(old(items), us.value) && n == UpdatedCount(old(items), us.value)
    {
      if us.None? || |us.value| == 0 {
        return 0;
      }
      var updates := us.value;
      ghost var t0 := items;
      n := 0;
      var i := 0;
      while i < |updates|
        invariant 0 <= i <= |updates| && items == StockUpdated(t0, updates[..i]) && n == UpdatedCount(t0, updates[..i])
        invariant JsMapValid(items) && items.vals.Keys == t0.vals.Keys
      {
        assert updates[..i + 1][..i] == updates[..i];
        StockUpdatedKeys(t0, updates[..i + 1]);
        var u := updates[i];
        if u.itemCode.Some? && u.itemCode.value != "" && u.itemCode.value in items.vals {
          var it := items.vals[u.itemCode.value];
          items := MapSet(items, u.itemCode.value, StockApplied(it, u));
          n := n + 1;
        }
        i := i + 1;
      }
      assert updates[..i] == updates;
    }

    /** The `switch` of `self.onmessage` for the message types that only
        read: the method has no `modifies`, so these leave the worker as it
        was. */
    method AnswerQuery(m: Request, id: nat) returns (r: Reply)
      requires Valid() && IsQuery(m)
      ensures r.id == id && (r.kind == Error <==> Fails(m))
      ensures m.Unknown? ==> r.payload == Failure("Unknown message type: " + m.kind)
      ensures m.CheckOffline? ==> r.payload == Flag(WorkerOffline(manualOffline, serverOnline, m.browserOnline))
      ensures m.GetInvoiceCount? ==> r.payload == Count(|Pending(queue)|)
      ensures m.GetInvoices? ==> r.payload == Entries(Pending(queue))
      ensures m.SearchItemsRequest? ==> r.payload == ItemRows(SearchItems(Values(items), m.searchTerm, m.limit))
      ensures m.SearchCustomersRequest? ==>
        r.payload == CustomerRows(SearchCustomers(Values(customers), m.searchTerm, m.limit))
      ensures m.IsCacheReady? ==> r.payload == Flag(|items.keys| > 0)
      ensures m.GetCacheStats? ==>
        r.payload == StatsAnswer(Stats(|items.keys|, |customers.keys|, queue, settings, m.statsFail))
    {
      match m {
        case CheckOffline(b) =>
          r := Reply(Success, id, Flag(manualOffline || !b || !serverOnline));
        case GetInvoiceCount =>
          r := Reply(Success, id, Count(|Pending(queue)|));
        case GetInvoices =>
          r := Reply(Success, id, Entries(Pending(queue)));
        case SearchItemsRequest(term, limit) =>
          r := Reply(Success, id, ItemRows(SearchItems(Values(items), term, limit)));
        case SearchCustomersRequest(term, limit) =>
          r := Reply(Success, id, CustomerRows(SearchCustomers(Values(customers), term, limit)));
        case IsCacheReady =>
          r := Reply(Success, id, Flag(|items.keys| > 0));
        case GetCacheStats(fail) =>
          r := Reply(Success, id, StatsAnswer(Stats(|items.keys|, |customers.keys|, queue, settings, fail)));
        case Unknown(k) =>
          r := Reply(Error, id, Failure("Unknown message type: " + k));
      }
    }

    /** The `switch` of `self.onmessage` for the message types that write:
        each changes the fields its handler writes and no others. */
    method ApplyRequest(m: Request, id: nat, now: int) returns (r: Reply)
      requires Valid() && !IsQuery(m)
      modifies this
      ensures Valid() && r.id == id && (r.kind == Error <==> Fails(m))
      ensures m.PingServer? ==>
        r.payload == Flag(m.responseOk == Some(true)) && serverOnline == (m.responseOk == Some(true)) &&
        unchanged(this`manualOffline, this`items, this`customers, this`queue, this`nextId, this`settings)
      ensures m.SaveInvoice? && !HasItems(m.invoiceData) ==>
        r.payload == Failure("Cannot save empty invoice") && unchanged(this)
      ensures m.SaveInvoice? && HasItems(m.invoiceData) ==>
        r.payload == SavedId(old(nextId)) && queue == old(queue) + [NewEntry(old(nextId), m.invoiceData, now)] &&
        nextId == old(nextId) + 1 &&
        unchanged(this`manualOffline, this`serverOnline, this`items, this`customers, this`settings)
      ensures m.CacheItems? && Processed(m.items).None? ==> r.payload.Failure? && unchanged(this)
      ensures m.CacheItems? && Processed(m.items).Some? ==>
        r.payload == Count(|m.items|) && items == PutItems(old(items), Processed(m.items).value) &&
        settings == old(settings)["items_last_sync" := now] &&
        unchanged(this`manualOffline, this`serverOnline, this`customers, this`queue, this`nextId)
      ensures m.CacheCustomers? ==>
        r.payload == Count(|m.customers|) && customers == PutCustomers(old(customers), m.customers) &&
        settings == old(settings)["customers_last_sync" := now] &&
        unchanged(this`manualOffline, this`serverOnline, this`items, this`queue, this`nextId)
      ensures m.DeleteInvoice? ==>
        r.payload == Done && queue == Filter(old(queue), (e: QueueEntry) => e.id != m.invoiceId) &&
        unchanged(this`manualOffline, this`serverOnline, this`items, this`customers, this`nextId, this`settings)
      ensures m.SetManualOffline? ==>
        manualOffline == m.value && r.payload == Flag(m.value) &&
        unchanged(this`serverOnline, this`items, this`customers, this`queue, this`nextId, this`settings)
      ensures m.UpdateStockQuantities? ==>
        items == StockUpdated(old(items), Coalesce(m.stockUpdates, [])) &&
        r.payload == Count(UpdatedCount(old(items), Coalesce(m.stockUpdates, []))) &&
        unchanged(this`manualOffline, this`serverOnline, this`customers, this`queue, this`nextId, this`settings)
    {
      match m {
        case PingServer(ok) =>
          var online := Ping(ok);
          r := Reply(Success, id, Flag(online));
        case SaveInvoice(d) =>
          var saved := SaveOfflineInvoice(d, now);
          r := if saved.Ok? then Reply(Success, id, SavedId(saved.value)) else Reply(Error, id, Failure(saved.msg));
        case CacheItems(rows) =>
          var cached := CacheItemsFromServer(rows, now);
          r := if cached.Ok? then Reply(Success, id, Count(cached.value)) else Reply(Error, id, Failure(cached.msg));
        case CacheCustomers(rows) =>
          var n := CacheCustomersFromServer(rows, now);
          r := Reply(Success, id, Count(n));
        case DeleteInvoice(x) =>
          queue := Filter(queue, (e: QueueEntry) => e.id != x);
          r := Reply(Success, id, Done);
        case SetManualOffline(v) =>
          manualOffline := v;
          r := Reply(Success, id, Flag(v));
        case UpdateStockQuantities(us) =>
          var n := UpdateStockQuantities(us);
          r := Reply(Success, id, Count(n));
      }
    }

    /** `self.onmessage`: exactly one reply, carrying the request's id, whose
        payload is the result of the message type's handler; a reading type
        changes nothing, a writing type only what its handler writes. */
    method HandleMessage(m: Request, id: nat, now: int) returns (r: Reply)
      requires Valid()
      modifies this
      ensures Valid() && r.id == id
      ensures r.kind == Error <==> Fails(m)
      ensures IsQuery(m) ==> unchanged(this)
      ensures m.Unknown? ==> r.payload == Failure("Unknown message type: " + m.kind)
      ensures m.CheckOffline? ==> r.payload == Flag(WorkerOffline(old(manualOffline), old(serverOnline), m.browserOnline))
      ensures m.GetInvoiceCount? ==> r.payload == Count(|Pending(old(queue))|)
      ensures m.GetInvoices? ==> r.payload == Entries(Pending(old(queue)))
      ensures m.SearchItemsRequest? ==> r.payload == ItemRows(SearchItems(Values(old(items)), m.searchTerm, m.limit))
      ensures m.SearchCustomersRequest? ==>
        r.payload == CustomerRows(SearchCustomers(Values(old(customers)), m.searchTerm, m.limit))
      ensures m.IsCacheReady? ==> r.payload == Flag(|old(items).keys| > 0)
      ensures m.GetCacheStats? ==>
        r.payload == StatsAnswer(Stats(|old(items).keys|, |old(customers).keys|, old(queue), old(settings), m.statsFail))
      ensures m.PingServer? ==>
        r.payload == Flag(m.responseOk == Some(true)) && serverOnline == (m.responseOk == Some(true)) &&
        unchanged(this`manualOffline, this`items, this`customers, this`queue, this`nextId, this`settings)
      ensures m.SaveInvoice? && !HasItems(m.invoiceData) ==>
        r.payload == Failure("Cannot save empty invoice") && unchanged(this)
      ensures m.SaveInvoice? && HasItems(m.invoiceData) ==>
        r.payload == SavedId(old(nextId)) && queue == old(queue) + [NewEntry(old(nextId), m.invoiceData, now)] &&
        nextId == old(nextId) + 1 &&
        unchanged(this`manualOffline, this`serverOnline, this`items, this`customers, this`settings)
      ensures m.CacheItems? && Processed(m.items).None? ==> r.payload.Failure? && unchanged(this)
      ensures m.CacheItems? && Processed(m.items).Some? ==>
        r.payload == Count(|m.items|) && items == PutItems(old(items), Processed(m.items).value) &&
        settings == old(settings)["items_last_sync" := now] &&
        unchanged(this`manualOffline, this`serverOnline, this`customers, this`queue, this`nextId)
      ensures m.CacheCustomers? ==>
        r.payload == Count(|m.customers|) && customers == PutCustomers(old(customers), m.customers) &&
        settings == old(settings)["customers_last_sync" := now] &&
        unchanged(this`manualOffline, this`serverOnline, this`items, this`queue, this`nextId)
      ensures m.DeleteInvoice? ==>
        r.payload == Done && queue == Filter(old(queue), (e: QueueEntry) => e.id != m.invoiceId) &&
        unchanged(this`manualOffline, this`serverOnline, this`items, this`customers, this`nextId, this`settings)
      ensures m.SetManualOffline? ==>
        manualOffline == m.value && r.payload == Flag(m.value) &&
        unchanged(this`serverOnline, this`items, this`customers, this`queue, this`nextId, this`settings)
      ensures m.UpdateStockQuantities? ==>
        items == StockUpdated(old(items), Coalesce(m.stockUpdates, [])) &&
        r.payload == Count(UpdatedCount(old(items), Coalesce(m.stockUpdates, []))) &&
        unchanged(this`manualOffline, this`serverOnline, this`customers, this`queue, this`nextId, this`settings)
    {
      if IsQuery(m) {
        r := AnswerQuery(m, id);
      } else {
        r := ApplyRequest(m, id, now);
      }
    }
  }

  /** The `items.map(...)` loop of `cacheItemsFromServer`. */
  method ProcessRows(rows: seq<ItemRow>) returns (r: Option<seq<ItemRow>>)
    ensures r == Processed(rows)
  {
    var out := [];
    var i := 0;
    while i < |rows|
      invariant 0 <= i <= |rows| && Processed(rows[..i]) == Some(out)
    {
      assert rows[..i + 1][..i] == rows[..i];
      var bs := ExtractBarcodes(rows[i]);
      if bs.None? {
        assert Processed(rows[..i + 1]).None?;
        ProcessedNonePropagates(rows, i + 1);
        assert rows[..|rows|] == rows;
        return None;
      }
      out := out + [rows[i].(barcodes := bs)];
      i := i + 1;
    }
    assert rows[..i] == rows;
    return Some(out);
  }

  /** Once a prefix throws, every longer prefix throws too. */
  lemma {:induction false} ProcessedNonePropagates(rows: seq<ItemRow>, k: nat)
    requires k <= |rows| && Processed(rows[..k]).None?
    ensures Processed(rows[..|rows|]).None?
    decreases |rows| - k
  {
    if k < |rows| {
      assert rows[..k + 1][..k] == rows[..k];
      ProcessedNonePropagates(rows, k + 1);
    }
  }
}
