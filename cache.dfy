// The in-memory cache (cache.js): a module-level `memory` object whose
// metadata mirrors the `settings` table, and the helpers that clear,
// search and summarise the offline database. The database is a value
// field; the reads that may fail are parameters.

module OfflineCacheModel {
  import opened Common
  import OfflineSyncModel
  import OfflineWorkerModel
  import opened OfflineDbModel

  type ItemRow = OfflineWorkerModel.ItemRow
  type Customer = OfflineWorkerModel.Customer
  type QueueEntry = OfflineSyncModel.QueueEntry

  const CacheVersion: int := 1
  const OneDay: int := 24 * 60 * 60 * 1000
  const DefaultSearchLimit: nat := 50

  const CacheVersionKey: string := "cache_version"
  const ItemsLastSyncKey: string := "items_last_sync"
  const CustomersLastSyncKey: string := "customers_last_sync"
  const CacheReadyKey: string := "cache_ready"
  const StockCacheReadyKey: string := "stock_cache_ready"
  const ManualOfflineKey: string := "manual_offline"

  /** The settings `clearAllCache` writes. */
  const ResetKeys: set<string> := {ItemsLastSyncKey, CustomersLastSyncKey, CacheReadyKey, StockCacheReadyKey}

  /** The fields of `memory` these helpers use. The metadata fields hold
      whatever the settings table gave back. */
  datatype Memory = Memory(items: seq<ItemRow>, customers: seq<Customer>, itemPrices: map<string, real>,
                           localStock: map<string, real>, itemsLastSync: SettingValue, customersLastSync: SettingValue,
                           cacheReady: SettingValue, stockCacheReady: SettingValue, manualOffline: SettingValue,
                           cacheVersion: int)

  /** The tables these helpers touch; `item_prices` and `stock` only by
      their number of rows. */
  datatype CacheDb = CacheDb(items: seq<ItemRow>, customers: seq<Customer>, itemPrices: nat, stock: nat,
                             invoiceQueue: seq<QueueEntry>, settings: map<string, SettingValue>)

  datatype CacheState = CacheState(mem: Memory, db: CacheDb)

  /** `memory` as the module declares it. */
  function InitialMemory(): Memory
  {
    Memory([], [], map[], map[], SNull, SNull, SBool(false), SBool(false), SBool(false), CacheVersion)
  }

  // ---- clearAllCache ----

  /** The first `upTo` of the four `clear()` calls have run. */
  function TablesCleared(d: CacheDb, upTo: nat): CacheDb
  {
    d.(items := if upTo > 0 then [] else d.items,
       customers := if upTo > 1 then [] else d.customers,
       itemPrices := if upTo > 2 then 0 else d.itemPrices,
       stock := if upTo > 3 then 0 else d.stock)
  }

  function ResetMemory(m: Memory): Memory
  {
    m.(items := [], customers := [], itemPrices := map[], localStock := map[],
       itemsLastSync := SNull, customersLastSync := SNull,
       cacheReady := SBool(false), stockCacheReady := SBool(false))
  }

  function ResetSettings(st: map<string, SettingValue>): map<string, SettingValue>
  {
    st[ItemsLastSyncKey := SNull][CustomersLastSyncKey := SNull][CacheReadyKey := SBool(false)][StockCacheReadyKey := SBool(false)]
  }

  /** `clearAllCache`: `failAt` is the index of the table `clear()` that
      throws, if any (`setSetting` never throws). */
  function ClearAll(s: CacheState, failAt: Option<nat>): (CacheState, bool)
  {
    if failAt.Some? && failAt.value < 4 then (s.(db := TablesCleared(s.db, failAt.value)), false)
    else (CacheState(ResetMemory(s.mem), TablesCleared(s.db, 4).(settings := ResetSettings(s.db.settings))), true)
  }

  // ---- needsCacheRefresh ----

  /** `needsCacheRefresh` at time `now`: never synced, or more than a day
      ago. */
  predicate NeedsRefresh(lastSync: SettingValue, now: int)
  {
    !SettingTruthy(lastSync) || now - SettingNumber(lastSync) > OneDay
  }

  /** Once a refresh is due it stays due; a sync at time `t` (not 0) makes
      the cache good for exactly one day. */
  lemma NeedsRefreshFacts(lastSync: SettingValue, now: int, later: int)
    ensures now <= later && NeedsRefresh(lastSync, now) ==> NeedsRefresh(lastSync, later)
    ensures lastSync.SNum? && lastSync.n != 0 ==>
      (NeedsRefresh(lastSync, now) <==> now > lastSync.n + OneDay)
    ensures !SettingTruthy(lastSync) ==> NeedsRefresh(lastSync, now)
  {
  }

  // ---- initMemoryCache ----

  /** The cache version is bumped: the stored version is replaced and
      `memory.cache_version` set. */
  function Migrated(s: CacheState): CacheState
  {
    CacheState(s.mem.(cacheVersion := CacheVersion), s.db.(settings := s.db.settings[CacheVersionKey := SNum(CacheVersion)]))
  }

  /** The five metadata fields read back from the settings table;
      `readFails(key)` says whether that `getSetting` read fails. */
  function Reloaded(m: Memory, st: map<string, SettingValue>, readFails: string -> bool): Memory
  {
    m.(itemsLastSync := GetSetting(st, ItemsLastSyncKey, SNull, readFails(ItemsLastSyncKey)),
       customersLastSync := GetSetting(st, CustomersLastSyncKey, SNull, readFails(CustomersLastSyncKey)),
       cacheReady := GetSetting(st, CacheReadyKey, SBool(false), readFails(CacheReadyKey)),
       stockCacheReady := GetSetting(st, StockCacheReadyKey, SBool(false), readFails(StockCacheReadyKey)),
       manualOffline := GetSetting(st, ManualOfflineKey, SBool(false), readFails(ManualOfflineKey)))
  }

  /** The stored version, defaulting to the current one. */
  function StoredVersion(s: CacheState, readFails: string -> bool): SettingValue
  {
    GetSetting(s.db.settings, CacheVersionKey, SNum(CacheVersion), readFails(CacheVersionKey))
  }

  /** `initMemoryCache`: `clearFailAt` is passed to the clear a version
      change triggers, `countFails` says whether counting the tables
      throws (after memory has been loaded). */
  function Init(s: CacheState, clearFailAt: Option<nat>, readFails: string -> bool, countFails: bool): (CacheState, bool)
  {
    var s1 := if StoredVersion(s, readFails) != SNum(CacheVersion) then Migrated(ClearAll(s, clearFailAt).0) else s;
    (s1.(mem := Reloaded(s1.mem, s1.db.settings, readFails)), !countFails)
  }

  /** The cache is cleared and the current version stored exactly when the
      stored version differs; either way the current version is what a
      later read finds, and memory mirrors the settings that were read. */
  lemma InitFacts(s: CacheState, clearFailAt: Option<nat>, readFails: string -> bool, countFails: bool)
    ensures var (t, ok) := Init(s, clearFailAt, readFails, countFails);
      (ok <==> !countFails) &&
      t.db.invoiceQueue == s.db.invoiceQueue &&
      (!readFails(CacheVersionKey) ==> GetSetting(t.db.settings, CacheVersionKey, SNum(CacheVersion), false) == SNum(CacheVersion))
    ensures var t := Init(s, clearFailAt, readFails, countFails).0;
      StoredVersion(s, readFails) == SNum(CacheVersion) ==>
        t.db == s.db && t.mem.items == s.mem.items && t.mem.cacheVersion == s.mem.cacheVersion
    ensures var t := Init(s, clearFailAt, readFails, countFails).0;
      StoredVersion(s, readFails) != SNum(CacheVersion) ==>
        t.db.settings[CacheVersionKey] == SNum(CacheVersion) && t.mem.cacheVersion == CacheVersion &&
        (ClearAll(s, clearFailAt).1 ==> t.db.items == [] && t.db.customers == [] && t.mem.items == [] && t.mem.customers == [])
    ensures var t := Init(s, clearFailAt, readFails, countFails).0;
      t.mem.itemsLastSync ==
        (if !readFails(ItemsLastSyncKey) && ItemsLastSyncKey in t.db.settings then t.db.settings[ItemsLastSyncKey] else SNull)
    ensures var t := Init(s, clearFailAt, readFails, countFails).0;
      t.mem.customersLastSync ==
        (if !readFails(CustomersLastSyncKey) && CustomersLastSyncKey in t.db.settings then t.db.settings[CustomersLastSyncKey] else SNull)
    ensures var t := Init(s, clearFailAt, readFails, countFails).0;
      t.mem.cacheReady ==
        (if !readFails(CacheReadyKey) && CacheReadyKey in t.db.settings then t.db.settings[CacheReadyKey] else SBool(false))
    ensures var t := Init(s, clearFailAt, readFails, countFails).0;
      t.mem.stockCacheReady ==
        (if !readFails(StockCacheReadyKey) && StockCacheReadyKey in t.db.settings then t.db.settings[StockCacheReadyKey] else SBool(false))
    ensures var t := Init(s, clearFailAt, readFails, countFails).0;
      t.mem.manualOffline ==
        (if !readFails(ManualOfflineKey) && ManualOfflineKey in t.db.settings then t.db.settings[ManualOfflineKey] else SBool(false))
  {
  }

  /** A second `initMemoryCache` under the same read failures changes
      nothing: the first one left the current version behind. */
  lemma InitIdempotent(s: CacheState, f1: Option<nat>, f2: Option<nat>, readFails: string -> bool, c1: bool, c2: bool)
    ensures Init(Init(s, f1, readFails, c1).0, f2, readFails, c2).0 == Init(s, f1, readFails, c1).0
  {
    var t := Init(s, f1, readFails, c1).0;
    if !readFails(CacheVersionKey) {
      if StoredVersion(s, readFails) != SNum(CacheVersion) {
        assert t.db.settings[CacheVersionKey] == SNum(CacheVersion);
      } else {
        assert t.db == s.db;
      }
    }
    assert StoredVersion(t, readFails) == SNum(CacheVersion);
  }

  // ---- setManualOffline / toggleManualOffline ----

  /** `setManualOffline(state)`: the boolean coercion of `state`, in memory
      and in the settings table. */
  function WithManualOffline(s: CacheState, state: SettingValue): CacheState
  {
    var b := SBool(SettingTruthy(state));
    CacheState(s.mem.(manualOffline := b), s.db.(settings := s.db.settings[ManualOfflineKey := b]))
  }

  /** `toggleManualOffline`: the new state and the value returned. */
  function Toggled(s: CacheState): (CacheState, SettingValue)
  {
    var t := WithManualOffline(s, SBool(!SettingTruthy(s.mem.manualOffline)));
    (t, t.mem.manualOffline)
  }

  /** Setting is idempotent; a toggle returns the negated state; two
      toggles are one set to the current value, and none at all once the
      flag is a boolean that is also the stored one. */
  lemma ManualOfflineFacts(s: CacheState, state: SettingValue)
    ensures WithManualOffline(WithManualOffline(s, state), state) == WithManualOffline(s, state)
    ensures Toggled(s).1 == SBool(!SettingTruthy(s.mem.manualOffline))
    ensures Toggled(s).0.mem == s.mem.(manualOffline := Toggled(s).1) && Toggled(s).0.db.items == s.db.items
    ensures Toggled(Toggled(s).0).0 == WithManualOffline(s, s.mem.manualOffline)
    ensures s.mem.manualOffline.SBool? && ManualOfflineKey in s.db.settings && s.db.settings[ManualOfflineKey] == s.mem.manualOffline
      ==> Toggled(Toggled(s).0).0 == s
  {
    if s.mem.manualOffline.SBool? && ManualOfflineKey in s.db.settings && s.db.settings[ManualOfflineKey] == s.mem.manualOffline {
      assert s.db.settings[ManualOfflineKey := s.mem.manualOffline] == s.db.settings;
    }
  }

  // ---- searchCachedItems ----

  /** A row the three index clauses find for the lower-cased term: a
      code or name prefix ignoring case, or an exact barcode. */
  predicate CacheHit(term: string, it: ItemRow)
  {
    OfflineWorkerModel.PrefixHit(term, it) || OfflineWorkerModel.BarcodeHit(term, it)
  }

  function Hits(rows: seq<ItemRow>, term: string): seq<ItemRow>
  {
    Filter(rows, it => CacheHit(term, it))
  }

  /** `searchCachedItems(searchTerm, limit)` over the table's rows;
      `fails` says whether the query throws. */
  function SearchCachedItems(rows: seq<ItemRow>, searchTerm: Option<string>, limit: Option<nat>, fails: bool): seq<ItemRow>
  {
    var n := Coalesce(limit, DefaultSearchLimit);
    if fails then []
    else if !Truthy(searchTerm) then Take(rows, n)
    else Take(Hits(rows, ToLower(searchTerm.value)), n)
  }

  /** At most `limit` rows (50 by default), all from the table. Without a
      term they are the first ones; with one, every row returned is a hit,
      and when there are no more hits than the limit every hit is
      returned. A failing query returns nothing. */
  lemma SearchCachedItemsFacts(rows: seq<ItemRow>, searchTerm: Option<string>, limit: Option<nat>, fails: bool)
    ensures var r := SearchCachedItems(rows, searchTerm, limit, fails);
      |r| <= Coalesce(limit, DefaultSearchLimit) && (fails ==> r == []) &&
      forall it :: it in r ==> it in rows
    ensures var r := SearchCachedItems(rows, searchTerm, limit, fails);
      !fails && !Truthy(searchTerm) ==>
        r == rows[..|r|] && |r| == (if |rows| < Coalesce(limit, DefaultSearchLimit) then |rows| else Coalesce(limit, DefaultSearchLimit))
    ensures var r := SearchCachedItems(rows, searchTerm, limit, fails);
      !fails && Truthy(searchTerm) ==>
        (forall it :: it in r ==> CacheHit(ToLower(searchTerm.value), it)) &&
        (|Hits(rows, ToLower(searchTerm.value))| <= Coalesce(limit, DefaultSearchLimit) ==>
          forall it :: it in rows && CacheHit(ToLower(searchTerm.value), it) ==> it in r)
  {
    if !fails && Truthy(searchTerm) {
      FilterMembers(rows, it => CacheHit(ToLower(searchTerm.value), it));
    }
  }

  // ---- getCacheStats ----

  datatype LastSyncText = Never | SyncedAt(at: int) | ErrorText

  datatype CacheSummary = CacheSummary(items: nat, customers: nat, queuedInvoices: nat, cacheReady: SettingValue,
                                       stockReady: SettingValue, lastSync: LastSyncText)

  /** `getCacheStats`: `fails` says whether a count throws. The queued
      invoices are those with `synced === false`, the pending query. */
  function Summary(s: CacheState, fails: bool): CacheSummary
  {
    if fails then CacheSummary(0, 0, 0, SBool(false), SBool(false), ErrorText)
    else
      CacheSummary(|s.db.items|, |s.db.customers|, |OfflineSyncModel.Pending(s.db.invoiceQueue)|,
                   s.mem.cacheReady, s.mem.stockCacheReady,
                   if SettingTruthy(s.mem.itemsLastSync) then SyncedAt(SettingNumber(s.mem.itemsLastSync)) else Never)
  }

  /** Saving an offline invoice adds one queued invoice, marking one synced
      removes it, and clearing the cache leaves the count alone. */
  lemma SummaryQueueFacts(s: CacheState, e: QueueEntry, failAt: Option<nat>)
    ensures Summary(s.(db := s.db.(invoiceQueue := s.db.invoiceQueue + [e])), false).queuedInvoices ==
      Summary(s, false).queuedInvoices + (if e.synced then 0 else 1)
    ensures Summary(ClearAll(s, failAt).0, false).queuedInvoices == Summary(s, false).queuedInvoices
    ensures Summary(s, false).queuedInvoices <= |s.db.invoiceQueue|
  {
    OfflineSyncModel.PendingSnoc(s.db.invoiceQueue, e);
  }

  /** On success the cache tables and memory are empty, a refresh is due
      and nothing is ready; the invoice queue, the manual-offline flag and
      the version are never touched. A failing clear leaves memory and
      settings as they were, with the tables before the failing one
      emptied. */
  lemma ClearAllFacts(s: CacheState, failAt: Option<nat>, now: int)
    ensures var (t, ok) := ClearAll(s, failAt);
      (ok <==> !(failAt.Some? && failAt.value < 4)) &&
      t.db.invoiceQueue == s.db.invoiceQueue && t.mem.manualOffline == s.mem.manualOffline &&
      t.mem.cacheVersion == s.mem.cacheVersion
    ensures var (t, ok) := ClearAll(s, failAt);
      ok ==>
        t.mem.items == [] && t.mem.customers == [] && t.mem.itemPrices == map[] && t.mem.localStock == map[] &&
        t.db.items == [] && t.db.customers == [] && t.db.itemPrices == 0 && t.db.stock == 0 &&
        NeedsRefresh(t.mem.itemsLastSync, now) && !SettingTruthy(t.mem.cacheReady) &&
        !SettingTruthy(t.mem.stockCacheReady) && Summary(t, false).lastSync == Never
    ensures var (t, ok) := ClearAll(s, failAt);
      ok ==>
        t.db.settings[ItemsLastSyncKey] == SNull && t.db.settings[CacheReadyKey] == SBool(false) &&
        forall k :: k in s.db.settings && k !in ResetKeys ==> k in t.db.settings && t.db.settings[k] == s.db.settings[k]
    ensures var (t, ok) := ClearAll(s, failAt);
      !ok ==>
        t.mem == s.mem && t.db.settings == s.db.settings &&
        (t.db.items == [] <==> failAt.value > 0 || s.db.items == []) && t.db.stock == s.db.stock
  {
  }
}

module OfflineCache {
  import opened Common
  import opened OfflineDbModel
  import opened OfflineCacheModel

  /** The `memory` object together with the database it mirrors. */
  class MemoryCache {
    var items: seq<ItemRow>
    var customers: seq<Customer>
    var itemPrices: map<string, real>
    var localStock: map<string, real>
    var itemsLastSync: SettingValue
    var customersLastSync: SettingValue
    var cacheReady: SettingValue
    var stockCacheReady: SettingValue
    var manualOffline: SettingValue
    var cacheVersion: int
    var db: CacheDb

    function State(): CacheState
      reads this
    {
      CacheState(Memory(items, customers, itemPrices, localStock, itemsLastSync, customersLastSync,
                        cacheReady, stockCacheReady, manualOffline, cacheVersion), db)
    }

    constructor(d: CacheDb)
      ensures State() == CacheState(InitialMemory(), d)
    {
      items, customers, itemPrices, localStock := [], [], map[], map[];
      itemsLastSync, customersLastSync := SNull, SNull;
      cacheReady, stockCacheReady, manualOffline := SBool(false), SBool(false), SBool(false);
      cacheVersion := CacheVersion;
      db := d;
    }

    /** The four table `clear()` calls of `clearAllCache`, in order; a
        throwing one stops the rest. */
    method ClearTables(failAt: Option<nat>) returns (ok: bool)
      modifies this`db
      ensures ok <==> !(failAt.Some? && failAt.value < 4)
      ensures db == TablesCleared(old(db), if ok then 4 else failAt.value)
    {
      if failAt == Some(0) { return false; }
      db := db.(items := []);
      if failAt == Some(1) { return false; }
      db := db.(customers := []);
      if failAt == Some(2) { return false; }
      db := db.(itemPrices := 0);
      if failAt == Some(3) { return false; }
      db := db.(stock := 0);
      ok := true;
    }

    /** The memory reset of `clearAllCache`. */
    method ResetMemoryFields()
      modifies this`items, this`customers, this`itemPrices, this`localStock
      modifies this`itemsLastSync, this`customersLastSync, this`cacheReady, this`stockCacheReady
      ensures State().mem == ResetMemory(old(State()).mem)
    {
      items, customers, itemPrices, localStock := [], [], map[], map[];
      itemsLastSync, customersLastSync := SNull, SNull;
      cacheReady, stockCacheReady := SBool(false), SBool(false);
    }

    /** `clearAllCache`: the tables, then memory, then the settings; a
        throwing `clear()` stops it and yields false. */
    method ClearAllCache(failAt: Option<nat>) returns (ok: bool)
      modifies this
      ensures (State(), ok) == ClearAll(old(State()), failAt)
    {
      ok := ClearTables(failAt);
      if !ok { return; }
      ResetMemoryFields();
      db := db.(settings := db.settings[ItemsLastSyncKey := SNull]);
      db := db.(settings := db.settings[CustomersLastSyncKey := SNull]);
      db := db.(settings := db.settings[CacheReadyKey := SBool(false)]);
      db := db.(settings := db.settings[StockCacheReadyKey := SBool(false)]);
    }

    /** The version check of `initMemoryCache`. */
    method CheckVersion(clearFailAt: Option<nat>, readFails: string -> bool)
      modifies this
      ensures State() == (if StoredVersion(old(State()), readFails) != SNum(CacheVersion)
                          then Migrated(ClearAll(old(State()), clearFailAt).0) else old(State()))
    {
      var storedVersion := GetSetting(db.settings, CacheVersionKey, SNum(CacheVersion), readFails(CacheVersionKey));
      if storedVersion != SNum(CacheVersion) {
        var _ := ClearAllCache(clearFailAt);
        db := db.(settings := db.settings[CacheVersionKey := SNum(CacheVersion)]);
        cacheVersion := CacheVersion;
      }
    }

    /** The metadata `initMemoryCache` loads from the settings table. */
    method LoadMetadata(readFails: string -> bool)
      modifies this`itemsLastSync, this`customersLastSync, this`cacheReady, this`stockCacheReady, this`manualOffline
      ensures State() == old(State()).(mem := Reloaded(old(State()).mem, db.settings, readFails))
    {
      itemsLastSync := GetSetting(db.settings, ItemsLastSyncKey, SNull, readFails(ItemsLastSyncKey));
      customersLastSync := GetSetting(db.settings, CustomersLastSyncKey, SNull, readFails(CustomersLastSyncKey));
      cacheReady := GetSetting(db.settings, CacheReadyKey, SBool(false), readFails(CacheReadyKey));
      stockCacheReady := GetSetting(db.settings, StockCacheReadyKey, SBool(false), readFails(StockCacheReadyKey));
      manualOffline := GetSetting(db.settings, ManualOfflineKey, SBool(false), readFails(ManualOfflineKey));
    }

    /** `initMemoryCache`: the version check, then the metadata; counting
        the tables comes last and only decides the result. */
    method InitMemoryCache(clearFailAt: Option<nat>, readFails: string -> bool, countFails: bool) returns (ok: bool)
      modifies this
      ensures (State(), ok) == Init(old(State()), clearFailAt, readFails, countFails)
    {
      CheckVersion(clearFailAt, readFails);
      LoadMetadata(readFails);
      ok := !countFails;
    }

    method SetManualOffline(state: SettingValue)
      modifies this
      ensures State() == WithManualOffline(old(State()), state)
    {
      manualOffline := SBool(SettingTruthy(state));
      db := db.(settings := db.settings[ManualOfflineKey := manualOffline]);
    }

    method ToggleManualOffline() returns (v: SettingValue)
      modifies this
      ensures (State(), v) == Toggled(old(State()))
    {
      SetManualOffline(SBool(!SettingTruthy(manualOffline)));
      v := manualOffline;
    }
  }
}
