// The offline database's bookkeeping (db.js): the 32-bit schema hash, the
// schema version kept in local storage, settings reads, the selective
// clearing of cached tables and the health check's recovery decision.
// The database engine's outcomes are parameters.

module OfflineDbModel {
  import opened Common

  const TwoTo32: int := 0x1_0000_0000
  const TwoTo31: int := 0x8000_0000

  /** JavaScript's `ToInt32`: the value modulo 2^32, read as a signed
      32-bit integer. */
  function ToInt32(x: int): (r: int)
    ensures -TwoTo31 <= r < TwoTo31
    ensures (x - r) % TwoTo32 == 0
  {
    var m := x % TwoTo32;
    if m >= TwoTo31 then m - TwoTo32 else m
  }

  /** Two integers congruent modulo 2^32 have the same `ToInt32`. */
  lemma ToInt32Congruent(x: int, y: int)
    requires (x - y) % TwoTo32 == 0
    ensures ToInt32(x) == ToInt32(y)
  {
    var q := (x - y) / TwoTo32;
    assert x - y == q * TwoTo32;
    assert x % TwoTo32 == y % TwoTo32 by {
      ModShift(y, q);
    }
  }

  lemma ModShift(y: int, q: int)
    ensures (y + q * TwoTo32) % TwoTo32 == y % TwoTo32
  {
  }

  /** One step of the hash as the source writes it: `(hash << 5) - hash +
      char`, then `hash & hash`. */
  function HashStepAsWritten(hash: int, c: char): int
  {
    ToInt32(ToInt32(ToInt32(hash) * 32) - hash + c as int)
  }

  /** The same step as arithmetic: `31 × hash + char` in signed 32 bits. */
  function HashStep(hash: int, c: char): (r: int)
    ensures -TwoTo31 <= r < TwoTo31
  {
    ToInt32(31 * hash + c as int)
  }

  /** On a 32-bit hash the shift-and-subtract step is `31 × hash + char`
      modulo 2^32. */
  lemma HashStepIsArithmetic(hash: int, c: char)
    requires -TwoTo31 <= hash < TwoTo31
    ensures HashStepAsWritten(hash, c) == HashStep(hash, c)
  {
    var s := ToInt32(hash * 32);
    assert ToInt32(hash) == hash;
    assert (s - hash + c as int) - (31 * hash + c as int) == s - hash * 32;
    ToInt32Congruent(s - hash + c as int, 31 * hash + c as int);
  }

  /** The running hash over `s`. */
  function Hash32(s: string): (h: int)
    ensures -TwoTo31 <= h < TwoTo31
  {
    if s == [] then 0 else HashStep(Hash32(s[..|s| - 1]), s[|s| - 1])
  }

  /** `getSchemaHash` of the serialised schema: `Math.abs` of the running
      hash, at most 2^31. */
  function SchemaHash(s: string): (h: nat)
    ensures h <= TwoTo31
  {
    var x := Hash32(s);
    if x < 0 then -x else x
  }

  predicate IsDigit(c: char)
  {
    '0' <= c <= '9'
  }

  /** The value of a string of decimal digits. */
  function DigitsValue(s: string): nat
    requires forall i :: 0 <= i < |s| ==> IsDigit(s[i])
  {
    if s == [] then 0
    else
      assert IsDigit(s[|s| - 1]);
      DigitsValue(s[..|s| - 1]) * 10 + (s[|s| - 1] as int - '0' as int)
  }

  /** The number of leading digits. */
  function LeadingDigits(s: string): (k: nat)
    ensures k <= |s| && forall i :: 0 <= i < k ==> IsDigit(s[i])
    ensures k < |s| ==> !IsDigit(s[k])
  {
    if s == [] || !IsDigit(s[0]) then 0 else 1 + LeadingDigits(s[1..])
  }

  /** `Number.parseInt` on the digits a string starts with, after an
      optional minus sign; `None` is NaN. */
  function ParseInt(s: string): Option<int>
  {
    var neg := |s| > 0 && s[0] == '-';
    var body := if neg then s[1..] else s;
    var k := LeadingDigits(body);
    var magnitude: int := if k == 0 then 0 else DigitsValue(body[..k]);
    if k == 0 then None else Some(if neg then -magnitude else magnitude)
  }

  /** `n.toString()` for an integer, `"NaN"` for NaN. */
  function VersionString(v: Option<int>): string
  {
    if v.None? then "NaN" else if v.value < 0 then "-" + NatToString(-v.value) else NatToString(v.value)
  }

  lemma {:induction false} DigitsOfNat(n: nat)
    ensures LeadingDigits(NatToString(n)) == |NatToString(n)|
    ensures DigitsValue(NatToString(n)) == n
    decreases n
  {
    var s := NatToString(n);
    AllDigitsLead(s);
    if n >= 10 {
      DigitsOfNat(n / 10);
      assert s[..|s| - 1] == NatToString(n / 10);
    }
  }

  lemma {:induction false} AllDigitsLead(s: string)
    requires forall i :: 0 <= i < |s| ==> IsDigit(s[i])
    ensures LeadingDigits(s) == |s|
  {
    if s != [] {
      AllDigitsLead(s[1..]);
    }
  }

  /** What is written as a version is read back unchanged. */
  lemma VersionRoundTrip(v: Option<int>)
    ensures ParseInt(VersionString(v)) == v
  {
    match v {
      case None => NotANumber();
      case Some(x) =>
        if x < 0 {
          NegativeRoundTrip(x);
        } else {
          NaturalRoundTrip(x);
        }
    }
  }

  lemma NotANumber()
    ensures ParseInt(VersionString(None)) == None
  {
    var s := "NaN";
    assert VersionString(None) == s;
    assert s[0] == 'N' && !IsDigit(s[0]);
    assert LeadingDigits(s) == 0;
  }

  lemma NaturalRoundTrip(n: nat)
    ensures ParseInt(VersionString(Some(n))) == Some(n)
  {
    DigitsOfNat(n);
    var s := NatToString(n);
    assert VersionString(Some(n)) == s;
    assert s[0] != '-';
    assert s[..|s|] == s;
  }

  lemma NegativeRoundTrip(x: int)
    requires x < 0
    ensures ParseInt(VersionString(Some(x))) == Some(x)
  {
    var n: nat := -x;
    var body := NatToString(n);
    DigitsOfNat(n);
    NegativeParse(VersionString(Some(x)), body, n);
  }

  /** The text of a negative version parses back to it. */
  lemma NegativeParse(v: string, body: string, n: nat)
    requires |body| > 0 && LeadingDigits(body) == |body| && DigitsValue(body) == n
    requires v == "-" + body
    ensures ParseInt(v) == Some(-(n as int))
  {
    ParseSigned(body);
  }

  /** A minus sign followed by digits parses to the negated digits. */
  lemma ParseSigned(body: string)
    requires |body| > 0 && LeadingDigits(body) == |body|
    ensures ParseInt("-" + body) == Some(-(DigitsValue(body) as int))
  {
    var s := "-" + body;
    assert s[0] == '-' && s[1..] == body;
    assert body[..|body|] == body;
  }

  /** `JSON.stringify(CURRENT_SCHEMA)`. */
  const SchemaJson: string :=
    "{\"settings\":\"&key\",\"invoice_queue\":\"++id, timestamp, synced\"," +
    "\"items\":\"&item_code, item_name, item_group, *barcodes\"," +
    "\"customers\":\"&name, customer_name, mobile_no, email_id\"," +
    "\"item_prices\":\"&[price_list+item_code], price_list, item_code\"," +
    "\"stock\":\"&[item_code+warehouse], item_code, warehouse\"," +
    "\"payment_methods\":\"&mode_of_payment, pos_profile\"," +
    "\"payment_queue\":\"++id, timestamp, synced\",\"drafts\":\"++id, draft_id, timestamp\"}"

  const HashKey := "pos_next_schema_hash"
  const VersionKey := "pos_next_schema_version"

  /** `getSchemaVersion` against local storage: the version it returns and
      the storage it leaves. */
  function SchemaVersion(storage: map<string, string>, hash: nat): (Option<int>, map<string, string>)
  {
    var text := if VersionKey in storage && storage[VersionKey] != "" then storage[VersionKey] else "1";
    var stored := ParseInt(text);
    if HashKey in storage && storage[HashKey] == NatToString(hash) then (stored, storage)
    else
      var bumped := if stored.Some? then Some(stored.value + 1) else None;
      (bumped, storage[HashKey := NatToString(hash)][VersionKey := VersionString(bumped)])
  }

  /** A matching hash returns the stored version (1 when none is stored)
      and writes nothing; a changed hash returns and stores one more and
      records the hash. */
  lemma SchemaVersionFacts(storage: map<string, string>, hash: nat)
    ensures HashKey in storage && storage[HashKey] == NatToString(hash) ==>
      SchemaVersion(storage, hash).1 == storage
    ensures HashKey in storage && storage[HashKey] == NatToString(hash) && VersionKey !in storage ==>
      SchemaVersion(storage, hash).0 == Some(1)
    ensures !(HashKey in storage && storage[HashKey] == NatToString(hash)) ==>
      var r := SchemaVersion(storage, hash);
      HashKey in r.1 && r.1[HashKey] == NatToString(hash) && VersionKey in r.1 && r.1[VersionKey] == VersionString(r.0)
    ensures !(HashKey in storage && storage[HashKey] == NatToString(hash)) && VersionKey in storage &&
            storage[VersionKey] != "" && ParseInt(storage[VersionKey]).Some? ==>
      SchemaVersion(storage, hash).0 == Some(ParseInt(storage[VersionKey]).value + 1)
  {
    VersionRoundTrip(Some(1));
    assert VersionString(Some(1)) == "1";
  }

  /** The bump happens once: a second call after the first returns the
      same version and writes nothing more. */
  lemma SchemaVersionIdempotent(storage: map<string, string>, hash: nat)
    ensures var r := SchemaVersion(storage, hash); SchemaVersion(r.1, hash) == r
  {
    var r := SchemaVersion(storage, hash);
    if !(HashKey in storage && storage[HashKey] == NatToString(hash)) {
      VersionRoundTrip(r.0);
      var s := r.1;
      assert s[VersionKey] == VersionString(r.0);
      assert VersionString(r.0) != "" by {
        if r.0.Some? && r.0.value >= 0 {
          var n: nat := r.0.value;
          assert |NatToString(n)| >= 1;
        }
      }
      assert HashKey in s && s[HashKey] == NatToString(hash);
    }
  }

  /** A value in the `settings` table: the callers store `null`, booleans
      and millisecond timestamps or version numbers. */
  datatype SettingValue = SNull | SBool(b: bool) | SNum(n: int)

  /** JavaScript truthiness of a stored setting. */
  predicate SettingTruthy(v: SettingValue)
  {
    match v
    case SNull => false
    case SBool(b) => b
    case SNum(n) => n != 0
  }

  /** The number JavaScript arithmetic makes of a stored setting. */
  function SettingNumber(v: SettingValue): int
  {
    match v
    case SNull => 0
    case SBool(b) => if b then 1 else 0
    case SNum(n) => n
  }

  /** `getSetting`: the stored value when the key is there, the default
      when it is missing or the read fails. */
  function GetSetting<V>(settings: map<string, V>, key: string, default: V, readFails: bool): (r: V)
    ensures readFails || key !in settings ==> r == default
    ensures !readFails && key in settings ==> r == settings[key]
  {
    if readFails || key !in settings then default else settings[key]
  }

  /** `setSetting`: the value is put under the key; a failing write is
      only logged and leaves the settings as they were. */
  function SetSetting<V>(settings: map<string, V>, key: string, value: V, writeFails: bool): (r: map<string, V>)
    ensures r.Keys == settings.Keys + (if writeFails then {} else {key})
  {
    if writeFails then settings else settings[key := value]
  }

  /** A setting written reads back as written, unless the write or the
      read fails; other keys read as before. */
  lemma SettingRoundTrip<V>(settings: map<string, V>, key: string, value: V, default: V, other: string,
                            writeFails: bool, readFails: bool)
    ensures !writeFails && !readFails ==> GetSetting(SetSetting(settings, key, value, writeFails), key, default, readFails) == value
    ensures writeFails ==>
      GetSetting(SetSetting(settings, key, value, writeFails), key, default, readFails) == GetSetting(settings, key, default, readFails)
    ensures other != key ==>
      GetSetting(SetSetting(settings, key, value, writeFails), other, default, readFails) == GetSetting(settings, other, default, readFails)
  {
  }

  /** What happens to the database when the health check's first read
      fails: `reopenError` is the name of the error reopening throws, if
      any, and `recreateOk` whether deleting and reopening succeeds. */
  datatype Health = Health(healthy: bool, recreated: bool)

  function CheckHealth(readOk: bool, reopenError: Option<string>, recreateOk: bool): (h: Health)
    ensures h.recreated <==> !readOk && reopenError.Some? && reopenError.value in {"VersionError", "InvalidStateError"}
    ensures h.healthy <==> readOk || reopenError.None? || (h.recreated && recreateOk)
  {
    if readOk then Health(true, false)
    else if reopenError.None? then Health(true, false)
    else if reopenError.value == "VersionError" || reopenError.value == "InvalidStateError" then Health(recreateOk, true)
    else Health(false, false)
  }

  /** The tables of the offline database. */
  datatype Table = Items | Customers | Stock | ItemPrices | PaymentMethods | InvoiceQueue | PaymentQueue | Drafts | Settings

  /** The options of `clearCachedData`; `None` is an absent option, which
      defaults to preserving. */
  datatype ClearOptions = ClearOptions(preserveInvoices: Option<bool>, preserveDrafts: Option<bool>, preserveSettings: Option<bool>)

  /** The table sizes after `clearCachedData`. */
  function ClearedRows(rows: map<Table, nat>, o: ClearOptions): map<Table, nat>
  {
    var always := rows[Items := 0][Customers := 0][Stock := 0][ItemPrices := 0][PaymentMethods := 0];
    var queues := if !Coalesce(o.preserveInvoices, true) then always[InvoiceQueue := 0][PaymentQueue := 0] else always;
    var drafts := if !Coalesce(o.preserveDrafts, true) then queues[Drafts := 0] else queues;
    if !Coalesce(o.preserveSettings, true) then drafts[Settings := 0] else drafts
  }

  /** The `cleared` record: `None` (the `undefined` a `clear()` resolves
      to) for each cleared table, 0 for the others. */
  function ClearedRecord(o: ClearOptions): map<Table, Option<nat>>
  {
    var zero := map[Items := Some(0), Customers := Some(0), Stock := Some(0), ItemPrices := Some(0),
                    PaymentMethods := Some(0), InvoiceQueue := Some(0), PaymentQueue := Some(0),
                    Drafts := Some(0), Settings := Some(0)];
    var always := zero[Items := None][Customers := None][Stock := None][ItemPrices := None][PaymentMethods := None];
    var queues := if !Coalesce(o.preserveInvoices, true) then always[InvoiceQueue := None][PaymentQueue := None] else always;
    var drafts := if !Coalesce(o.preserveDrafts, true) then queues[Drafts := None] else queues;
    if !Coalesce(o.preserveSettings, true) then drafts[Settings := None] else drafts
  }

  /** The five cache tables are always emptied; a preserved table keeps its
      rows. */
  lemma ClearedRowsFacts(rows: map<Table, nat>, o: ClearOptions)
    ensures forall t :: t in ClearedTables(o) ==> t in ClearedRows(rows, o) && ClearedRows(rows, o)[t] == 0
    ensures forall t :: t !in ClearedTables(o) ==>
      (t in ClearedRows(rows, o) <==> t in rows) && (t in rows ==> ClearedRows(rows, o)[t] == rows[t])
  {
  }

  /** The record marks exactly the emptied tables. */
  lemma ClearedRecordFacts(o: ClearOptions, t: Table)
    ensures t in ClearedRecord(o) && (ClearedRecord(o)[t].None? <==> t in ClearedTables(o))
  {
    match t {
      case Items =>
      case Customers =>
      case Stock =>
      case ItemPrices =>
      case PaymentMethods =>
      case InvoiceQueue =>
      case PaymentQueue =>
      case Drafts =>
      case Settings =>
    }
  }

  /** A table the record does not mark is at 0. */
  lemma ClearedRecordZero(o: ClearOptions, t: Table)
    ensures t in ClearedRecord(o) && (ClearedRecord(o)[t].Some? ==> ClearedRecord(o)[t] == Some(0))
  {
    match t {
      case Items =>
      case Customers =>
      case Stock =>
      case ItemPrices =>
      case PaymentMethods =>
      case InvoiceQueue =>
      case PaymentQueue =>
      case Drafts =>
      case Settings =>
    }
  }

  /** The tables `clearCachedData` empties. */
  function ClearedTables(o: ClearOptions): (ts: set<Table>)
    ensures {Items, Customers, Stock, ItemPrices, PaymentMethods} <= ts
    ensures InvoiceQueue in ts <==> o.preserveInvoices == Some(false)
    ensures PaymentQueue in ts <==> o.preserveInvoices == Some(false)
    ensures Drafts in ts <==> o.preserveDrafts == Some(false)
    ensures Settings in ts <==> o.preserveSettings == Some(false)
  {
    {Items, Customers, Stock, ItemPrices, PaymentMethods} +
    (if !Coalesce(o.preserveInvoices, true) then {InvoiceQueue, PaymentQueue} else {}) +
    (if !Coalesce(o.preserveDrafts, true) then {Drafts} else {}) +
    (if !Coalesce(o.preserveSettings, true) then {Settings} else {})
  }

  /** The result of `clearCachedData`: `success` and the `cleared` record
      (the `error` message is not modelled). */
  datatype ClearReport = ClearReport(success: bool, cleared: map<Table, Option<nat>>)

  /** The `results` record as initialised: 0 for every table. */
  const NothingCleared: map<Table, Option<nat>> :=
    map[Items := Some(0), Customers := Some(0), Stock := Some(0), ItemPrices := Some(0),
        PaymentMethods := Some(0), InvoiceQueue := Some(0), PaymentQueue := Some(0),
        Drafts := Some(0), Settings := Some(0)]

  /** The state of a `clearCachedData` run: the row counts, the `results`
      record, and whether no `clear()` has thrown yet. */
  datatype ClearRun = ClearRun(rows: map<Table, nat>, cleared: map<Table, Option<nat>>, ok: bool)

  /** One `results.x = await db.x.clear()`: once a clear has thrown nothing
      more runs; the clear of `failOn` throws and writes nothing. */
  function ClearNext(st: ClearRun, t: Table, failOn: Option<Table>): ClearRun
  {
    if !st.ok then st
    else if failOn == Some(t) then st.(ok := false)
    else ClearRun(st.rows[t := 0], st.cleared[t := None], true)
  }

  /** The `clear()` calls of `clearCachedData`, in the order they run. */
  function ClearOrder(o: ClearOptions): (ts: seq<Table>)
    ensures forall t :: t in ts <==> t in ClearedTables(o)
  {
    [Items] + ([Customers] + ([Stock] + ([ItemPrices] + ([PaymentMethods] + QueuesPart(o)))))
  }

  /** The clears that follow the five cache tables. */
  function QueuesPart(o: ClearOptions): seq<Table>
  {
    if !Coalesce(o.preserveInvoices, true) then [InvoiceQueue] + ([PaymentQueue] + DraftsPart(o)) else DraftsPart(o)
  }

  function DraftsPart(o: ClearOptions): seq<Table>
  {
    if !Coalesce(o.preserveDrafts, true) then [Drafts] + SettingsPart(o) else SettingsPart(o)
  }

  function SettingsPart(o: ClearOptions): seq<Table>
  {
    if !Coalesce(o.preserveSettings, true) then [Settings] else []
  }

  /** The clears `ts` run one after the other from `st`. */
  function ClearSteps(st: ClearRun, ts: seq<Table>, failOn: Option<Table>): ClearRun
    decreases |ts|
  {
    if ts == [] then st else ClearSteps(ClearNext(st, ts[0], failOn), ts[1..], failOn)
  }

  /** The whole `try` of `clearCachedData` when the `clear()` of `failOn`
      throws (`None` when none does); `ok` is then the `success` flag. */
  function ClearCached(rows: map<Table, nat>, o: ClearOptions, failOn: Option<Table>): ClearRun
  {
    var s0 := ClearRun(rows, NothingCleared, true);
    var s1 := ClearNext(ClearNext(ClearNext(ClearNext(ClearNext(s0, Items, failOn), Customers, failOn),
                                            Stock, failOn), ItemPrices, failOn), PaymentMethods, failOn);
    var s2 := if !Coalesce(o.preserveInvoices, true) then ClearNext(ClearNext(s1, InvoiceQueue, failOn), PaymentQueue, failOn) else s1;
    var s3 := if !Coalesce(o.preserveDrafts, true) then ClearNext(s2, Drafts, failOn) else s2;
    if !Coalesce(o.preserveSettings, true) then ClearNext(s3, Settings, failOn) else s3
  }

  /** The same `try`, as the clears of `ClearOrder` run one after the other. */
  lemma ClearCachedInOrder(rows: map<Table, nat>, o: ClearOptions, failOn: Option<Table>)
    ensures ClearCached(rows, o, failOn) == ClearSteps(ClearRun(rows, NothingCleared, true), ClearOrder(o), failOn)
  {
    var s0 := ClearRun(rows, NothingCleared, true);
    var f := failOn;
    ClearStepsCons(s0, Items, [Customers] + ([Stock] + ([ItemPrices] + ([PaymentMethods] + QueuesPart(o)))), f);
    var s := ClearNext(s0, Items, f);
    ClearStepsCons(s, Customers, [Stock] + ([ItemPrices] + ([PaymentMethods] + QueuesPart(o))), f);
    s := ClearNext(s, Customers, f);
    ClearStepsCons(s, Stock, [ItemPrices] + ([PaymentMethods] + QueuesPart(o)), f);
    s := ClearNext(s, Stock, f);
    ClearStepsCons(s, ItemPrices, [PaymentMethods] + QueuesPart(o), f);
    s := ClearNext(s, ItemPrices, f);
    ClearStepsCons(s, PaymentMethods, QueuesPart(o), f);
    s := ClearNext(s, PaymentMethods, f);
    if !Coalesce(o.preserveInvoices, true) {
      ClearStepsCons(s, InvoiceQueue, [PaymentQueue] + DraftsPart(o), f);
      s := ClearNext(s, InvoiceQueue, f);
      ClearStepsCons(s, PaymentQueue, DraftsPart(o), f);
      s := ClearNext(s, PaymentQueue, f);
    }
    if !Coalesce(o.preserveDrafts, true) {
      ClearStepsCons(s, Drafts, SettingsPart(o), f);
      s := ClearNext(s, Drafts, f);
    }
    if !Coalesce(o.preserveSettings, true) {
      ClearStepsCons(s, Settings, [], f);
      s := ClearNext(s, Settings, f);
    }
    assert ClearSteps(s, [], f) == s;
  }

  /** Once a clear has thrown, the rest of the `try` is skipped. */
  lemma {:induction false} ClearStepsStopped(st: ClearRun, ts: seq<Table>, failOn: Option<Table>)
    requires !st.ok
    ensures ClearSteps(st, ts, failOn) == st
    decreases |ts|
  {
    if ts != [] {
      ClearStepsStopped(ClearNext(st, ts[0], failOn), ts[1..], failOn);
    }
  }

  /** Running `[t] + ts` is running `t`, then `ts` unless `t` threw. */
  lemma ClearStepsCons(st: ClearRun, t: Table, ts: seq<Table>, failOn: Option<Table>)
    ensures ClearSteps(st, [t] + ts, failOn) == ClearSteps(ClearNext(st, t, failOn), ts, failOn)
    ensures !ClearNext(st, t, failOn).ok ==> ClearSteps(st, [t] + ts, failOn) == ClearNext(st, t, failOn)
  {
    assert ([t] + ts)[0] == t && ([t] + ts)[1..] == ts;
    if !ClearNext(st, t, failOn).ok {
      ClearStepsStopped(ClearNext(st, t, failOn), ts, failOn);
    }
  }

  /** A run leaves the record of a table it does not clear alone. */
  lemma {:induction false} ClearStepsFrame(st: ClearRun, ts: seq<Table>, failOn: Option<Table>, t: Table)
    requires t !in ts && t in st.cleared
    ensures t in ClearSteps(st, ts, failOn).cleared && ClearSteps(st, ts, failOn).cleared[t] == st.cleared[t]
    decreases |ts|
  {
    if ts != [] {
      ClearStepsFrame(ClearNext(st, ts[0], failOn), ts[1..], failOn, t);
    }
  }

  /** What a run has done so far, for the tables `seen` it has stepped
      over: a table is emptied exactly when the record marks it, only a
      table of `allowed` is, every other one keeps its rows and its 0, and
      the run is still going exactly when `failOn` has not been stepped
      over, in which case every table seen is emptied. */
  ghost predicate Tracks(rows0: map<Table, nat>, st: ClearRun, seen: set<Table>, allowed: set<Table>, failOn: Option<Table>)
  {
    (forall t :: t in st.cleared &&
      (st.cleared[t].None? ==> t in seen && t in allowed && t in st.rows && st.rows[t] == 0) &&
      (st.cleared[t].Some? ==> st.cleared[t] == Some(0) && (t in st.rows <==> t in rows0) && (t in rows0 ==> st.rows[t] == rows0[t]))) &&
    (failOn.Some? ==> st.cleared[failOn.value] == Some(0)) &&
    (st.ok <==> !(failOn.Some? && failOn.value in seen)) &&
    (st.ok ==> forall t :: t in seen ==> st.cleared[t] == None)
  }

  lemma NextTracks(rows0: map<Table, nat>, st: ClearRun, seen: set<Table>, allowed: set<Table>, failOn: Option<Table>, t: Table)
    requires Tracks(rows0, st, seen, allowed, failOn) && t in allowed
    ensures Tracks(rows0, ClearNext(st, t, failOn), seen + {t}, allowed, failOn)
  {
  }

  lemma {:induction false} StepsTracks(rows0: map<Table, nat>, st: ClearRun, seen: set<Table>, allowed: set<Table>,
                                       failOn: Option<Table>, ts: seq<Table>)
    requires Tracks(rows0, st, seen, allowed, failOn) && forall t :: t in ts ==> t in allowed
    ensures Tracks(rows0, ClearSteps(st, ts, failOn), seen + (set t | t in ts), allowed, failOn)
    decreases |ts|
  {
    if ts != [] {
      NextTracks(rows0, st, seen, allowed, failOn, ts[0]);
      StepsTracks(rows0, ClearNext(st, ts[0], failOn), seen + {ts[0]}, allowed, failOn, ts[1..]);
      assert seen + {ts[0]} + (set t | t in ts[1..]) == seen + (set t | t in ts) by {
        assert forall t :: t in ts <==> t == ts[0] || t in ts[1..];
      }
    }
  }

  /** When the clear of `ts[j]` throws, the clears before it have emptied
      their tables and marked them in the record, and that one and the
      ones after it are still marked 0. */
  lemma {:induction false} StepsPartial(st: ClearRun, ts: seq<Table>, j: nat)
    requires st.ok && j < |ts|
    requires NoRepeats(ts)
    requires forall t :: t in ts ==> t in st.cleared && st.cleared[t] == Some(0)
    ensures !ClearSteps(st, ts, Some(ts[j])).ok
    ensures forall i :: 0 <= i < |ts| ==> ts[i] in ClearSteps(st, ts, Some(ts[j])).cleared
    ensures forall i :: 0 <= i < j ==> ClearSteps(st, ts, Some(ts[j])).cleared[ts[i]] == None
    ensures forall i :: j <= i < |ts| ==> ClearSteps(st, ts, Some(ts[j])).cleared[ts[i]] == Some(0)
    decreases |ts|
  {
    var f := Some(ts[j]);
    var next := ClearNext(st, ts[0], f);
    var r := ClearSteps(st, ts, f);
    assert r == ClearSteps(next, ts[1..], f);
    if j == 0 {
      ClearStepsStopped(next, ts[1..], f);
    } else {
      assert ts[1..][j - 1] == ts[j];
      StepsPartial(next, ts[1..], j - 1);
      assert ts[0] !in ts[1..];
      ClearStepsFrame(next, ts[1..], f, ts[0]);
      forall i | 1 <= i < |ts|
        ensures ts[i] in r.cleared
        ensures i < j ==> r.cleared[ts[i]] == None
        ensures j <= i ==> r.cleared[ts[i]] == Some(0)
      {
        assert ts[i] == ts[1..][i - 1];
      }
    }
  }

  /** No table appears twice in `ts`. */
  ghost predicate NoRepeats(ts: seq<Table>)
  {
    forall a, b :: 0 <= a < b < |ts| ==> ts[a] != ts[b]
  }

  lemma NoRepeatsCons(t: Table, ts: seq<Table>)
    requires t !in ts && NoRepeats(ts)
    ensures NoRepeats([t] + ts)
  {
    forall a, b | 0 <= a < b < |[t] + ts|
      ensures ([t] + ts)[a] != ([t] + ts)[b]
    {
      assert ([t] + ts)[b] == ts[b - 1];
      if a > 0 {
        assert ([t] + ts)[a] == ts[a - 1];
      }
    }
  }

  /** No table is cleared twice. */
  lemma ClearOrderDistinct(o: ClearOptions)
    ensures NoRepeats(ClearOrder(o))
  {
    var q := QueuesPart(o);
    QueuesPartDistinct(o);
    NoRepeatsCons(PaymentMethods, q);
    NoRepeatsCons(ItemPrices, [PaymentMethods] + q);
    NoRepeatsCons(Stock, [ItemPrices] + ([PaymentMethods] + q));
    NoRepeatsCons(Customers, [Stock] + ([ItemPrices] + ([PaymentMethods] + q)));
    NoRepeatsCons(Items, [Customers] + ([Stock] + ([ItemPrices] + ([PaymentMethods] + q))));
  }

  lemma QueuesPartDistinct(o: ClearOptions)
    ensures NoRepeats(QueuesPart(o))
    ensures forall t :: t in QueuesPart(o) ==> t == InvoiceQueue || t == PaymentQueue || t == Drafts || t == Settings
  {
    var e := SettingsPart(o);
    var d := DraftsPart(o);
    if !Coalesce(o.preserveDrafts, true) {
      NoRepeatsCons(Drafts, e);
    }
    if !Coalesce(o.preserveInvoices, true) {
      NoRepeatsCons(PaymentQueue, d);
      NoRepeatsCons(InvoiceQueue, [PaymentQueue] + d);
    }
  }

  /** Whether or not a clear throws, `clearCachedData` empties a table
      exactly when its record marks it, only tables the options name, the
      others keep their rows and their 0, the table whose clear threw is
      not emptied, and the run fails exactly when that table is one the
      options name. */
  lemma ClearCachedTracks(rows: map<Table, nat>, o: ClearOptions, failOn: Option<Table>)
    ensures Tracks(rows, ClearCached(rows, o, failOn), ClearedTables(o), ClearedTables(o), failOn)
  {
    var a := ClearedTables(o);
    var s0 := ClearRun(rows, NothingCleared, true);
    TracksStart(rows, a, failOn);
    ClearCachedInOrder(rows, o, failOn);
    StepsTracks(rows, s0, {}, a, failOn, ClearOrder(o));
    OrderCovers(o);
  }

  lemma TracksStart(rows: map<Table, nat>, allowed: set<Table>, failOn: Option<Table>)
    ensures Tracks(rows, ClearRun(rows, NothingCleared, true), {}, allowed, failOn)
  {
    NothingClearedZero();
  }

  /** The `results` record starts with every table at 0. */
  lemma NothingClearedZero()
    ensures forall t :: t in NothingCleared && NothingCleared[t] == Some(0)
  {
    forall t
      ensures t in NothingCleared && NothingCleared[t] == Some(0)
    {
      match t {
        case Items =>
        case Customers =>
        case Stock =>
        case ItemPrices =>
        case PaymentMethods =>
        case InvoiceQueue =>
        case PaymentQueue =>
        case Drafts =>
        case Settings =>
      }
    }
  }

  lemma OrderCovers(o: ClearOptions)
    ensures {} + (set t | t in ClearOrder(o)) == ClearedTables(o)
  {
  }

  /** When the clear of `failOn` throws, the clears the order runs before
      it have emptied their tables and are marked in the record, and that
      one and the ones after it have not and are still marked 0. */
  lemma ClearCachedPartial(rows: map<Table, nat>, o: ClearOptions, j: nat)
    requires j < |ClearOrder(o)|
    ensures !ClearSteps(ClearRun(rows, NothingCleared, true), ClearOrder(o), Some(ClearOrder(o)[j])).ok
    ensures forall i :: 0 <= i < |ClearOrder(o)| ==>
      ClearOrder(o)[i] in ClearSteps(ClearRun(rows, NothingCleared, true), ClearOrder(o), Some(ClearOrder(o)[j])).cleared
    ensures forall i :: 0 <= i < j ==>
      ClearSteps(ClearRun(rows, NothingCleared, true), ClearOrder(o), Some(ClearOrder(o)[j])).cleared[ClearOrder(o)[i]] == None
    ensures forall i :: j <= i < |ClearOrder(o)| ==>
      ClearSteps(ClearRun(rows, NothingCleared, true), ClearOrder(o), Some(ClearOrder(o)[j])).cleared[ClearOrder(o)[i]] == Some(0)
  {
    ClearOrderDistinct(o);
    NothingClearedZero();
    StepsPartial(ClearRun(rows, NothingCleared, true), ClearOrder(o), j);
  }

  /** A run that tracked every table the options name without a throw has
      the rows of the full clear. */
  lemma FullRunRows(rows: map<Table, nat>, s: ClearRun, o: ClearOptions, failOn: Option<Table>)
    requires Tracks(rows, s, ClearedTables(o), ClearedTables(o), failOn) && s.ok
    ensures s.rows == ClearedRows(rows, o)
  {
    ClearedRowsFacts(rows, o);
  }

  /** ... and the record of the full clear. */
  lemma FullRunRecord(rows: map<Table, nat>, s: ClearRun, o: ClearOptions, failOn: Option<Table>)
    requires Tracks(rows, s, ClearedTables(o), ClearedTables(o), failOn) && s.ok
    ensures s.cleared == ClearedRecord(o)
  {
    forall t
      ensures t in ClearedRecord(o) && (ClearedRecord(o)[t].None? <==> t in ClearedTables(o))
    {
      ClearedRecordFacts(o, t);
    }
    forall t
      ensures ClearedRecord(o)[t] == (if t in ClearedTables(o) then None else Some(0))
    {
      ClearedRecordFacts(o, t);
      ClearedRecordZero(o, t);
    }
  }

  /** `clearCachedData` succeeds exactly when no clear it runs throws, and
      then is the full clear. */
  lemma ClearCachedSuccess(rows: map<Table, nat>, o: ClearOptions, failOn: Option<Table>)
    ensures ClearCached(rows, o, failOn).ok <==> !(failOn.Some? && failOn.value in ClearedTables(o))
    ensures ClearCached(rows, o, failOn).ok ==>
      ClearCached(rows, o, failOn).rows == ClearedRows(rows, o) && ClearCached(rows, o, failOn).cleared == ClearedRecord(o)
  {
    ClearCachedTracks(rows, o, failOn);
    var s := ClearCached(rows, o, failOn);
    if s.ok {
      FullRunRows(rows, s, o, failOn);
      FullRunRecord(rows, s, o, failOn);
    }
  }
}

module OfflineDb {
  import opened Common
  import opened OfflineDbModel

  /** `getSchemaHash`'s loop, as written. */
  method SchemaHashLoop(s: string) returns (h: nat)
    ensures h == SchemaHash(s)
  {
    var hash := 0;
    var i := 0;
    while i < |s|
      invariant 0 <= i <= |s| && hash == Hash32(s[..i])
    {
      assert s[..i + 1][..i] == s[..i];
      HashStepIsArithmetic(hash, s[i]);
      var shifted := ToInt32(ToInt32(hash) * 32);
      hash := ToInt32(shifted - hash + s[i] as int);
      i := i + 1;
    }
    assert s[..i] == s;
    h := if hash < 0 then -hash else hash;
  }

  /** Local storage and the row counts of the database's tables. */
  class OfflineStorage {
    var storage: map<string, string>
    var rows: map<Table, nat>

    constructor(storage0: map<string, string>, rows0: map<Table, nat>)
      ensures storage == storage0 && rows == rows0
    {
      storage := storage0;
      rows := rows0;
    }

    /** `getSchemaVersion`. */
    method GetSchemaVersion(schema: string) returns (v: Option<int>)
      modifies this`storage
      ensures (v, storage) == SchemaVersion(old(storage), SchemaHash(schema))
    {
      var hash := SchemaHashLoop(schema);
      var text := if VersionKey in storage && storage[VersionKey] != "" then storage[VersionKey] else "1";
      var stored := ParseInt(text);
      if HashKey in storage && storage[HashKey] == NatToString(hash) {
        return stored;
      }
      v := if stored.Some? then Some(stored.value + 1) else None;
      storage := storage[HashKey := NatToString(hash)];
      storage := storage[VersionKey := VersionString(v)];
    }

    /** The version the module opens the database with. */
    method OpenVersion() returns (v: Option<int>)
      modifies this`storage
      ensures (v, storage) == SchemaVersion(old(storage), SchemaHash(SchemaJson))
    {
      v := GetSchemaVersion(SchemaJson);
    }

    /** One `table.clear()`. */
    method ClearTable(t: Table)
      modifies this`rows
      ensures rows == old(rows)[t := 0]
    {
      rows := rows[t := 0];
    }

    /** The five cache tables `clearCachedData` always empties. */
    method ClearCacheTables()
      modifies this`rows
      ensures rows == old(rows)[Items := 0][Customers := 0][Stock := 0][ItemPrices := 0][PaymentMethods := 0]
    {
      ClearTable(Items);
      ClearTable(Customers);
      ClearTable(Stock);
      ClearTable(ItemPrices);
      ClearTable(PaymentMethods);
    }

    /** One `results.x = await db.x.clear()`, which throws when `t` is
        `failOn`. */
    method ClearStep(t: Table, failOn: Option<Table>, results: map<Table, Option<nat>>)
      returns (ok: bool, next: map<Table, Option<nat>>)
      modifies this`rows
      ensures ClearRun(rows, next, ok) == ClearNext(ClearRun(old(rows), results, true), t, failOn)
    {
      if failOn == Some(t) {
        return false, results;
      }
      ClearTable(t);
      return true, results[t := None];
    }

    /** `clearCachedData`; the `clear()` of `failOn` throws, and the `catch`
        answers `success: false` with the `results` record as far as it got. */
    method ClearCachedData(o: ClearOptions, failOn: Option<Table>) returns (report: ClearReport)
      modifies this`rows
      ensures rows == ClearCached(old(rows), o, failOn).rows
      ensures report == ClearReport(ClearCached(old(rows), o, failOn).ok, ClearCached(old(rows), o, failOn).cleared)
    {
      var results := NothingCleared;
      var ok;
      ok, results := ClearStep(Items, failOn, results);
      if !ok { return ClearReport(false, results); }
      ok, results := ClearStep(Customers, failOn, results);
      if !ok { return ClearReport(false, results); }
      ok, results := ClearStep(Stock, failOn, results);
      if !ok { return ClearReport(false, results); }
      ok, results := ClearStep(ItemPrices, failOn, results);
      if !ok { return ClearReport(false, results); }
      ok, results := ClearStep(PaymentMethods, failOn, results);
      if !ok { return ClearReport(false, results); }
      if !Coalesce(o.preserveInvoices, true) {
        ok, results := ClearStep(InvoiceQueue, failOn, results);
        if !ok { return ClearReport(false, results); }
        ok, results := ClearStep(PaymentQueue, failOn, results);
        if !ok { return ClearReport(false, results); }
      }
      if !Coalesce(o.preserveDrafts, true) {
        ok, results := ClearStep(Drafts, failOn, results);
        if !ok { return ClearReport(false, results); }
      }
      if !Coalesce(o.preserveSettings, true) {
        ok, results := ClearStep(Settings, failOn, results);
        if !ok { return ClearReport(false, results); }
      }
      return ClearReport(true, results);
    }
  }
}
