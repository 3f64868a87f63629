// The offline invoice queue (sync.js): invoices saved while offline, the
// local stock they consume, and the pass that submits them once the till is
// back online. The browser flags, the clock and the server's answer to each
// submission are parameters.

module OfflineSyncModel {
  import opened Common

  /** How many failures an entry has seen before it is marked `sync_failed`. */
  const RetryThreshold: nat := 3
  /** Seven days, in milliseconds. */
  const WeekMs: int := 7 * 24 * 60 * 60 * 1000

  /** A line of a saved invoice; `quantity` and `qty` may be absent. */
  datatype Line = Line(itemCode: Option<string>, warehouse: Option<string>, quantity: JsNum, qty: JsNum)

  /** The invoice payload; `items` is absent when the field is missing. */
  datatype InvoiceData = InvoiceData(items: Option<seq<Line>>)

  /** A row of `invoice_queue`. `retryCount` is `None` for an entry that
      never carried the field. */
  datatype QueueEntry = QueueEntry(id: nat, data: InvoiceData, timestamp: int, synced: bool,
                                   retryCount: Option<nat>, syncFailed: bool, error: Option<string>)

  /** The `stock` table's compound key. */
  datatype StockKey = StockKey(code: Option<string>, warehouse: Option<string>)

  datatype StockEntry = StockEntry(qty: real, updatedAt: int)

  /** What `frappe.call` does with one submission: it answers, with a
      truthy `message` or not, or it throws. */
  datatype Outcome = Answered(message: bool) | Threw(errorMessage: string)

  /** The browser's view: `hasWindow` is `typeof window !== 'undefined'`;
      `serverOnline` is `None` while the ping has not set the flag. */
  datatype Browser = Browser(hasWindow: bool, manualOffline: bool, browserOnline: bool, serverOnline: Option<bool>)

  /** `isOffline`. */
  predicate IsOffline(b: Browser)
  {
    b.hasWindow && (b.manualOffline || !b.browserOnline || b.serverOnline == Some(false))
  }

  /** A window is offline under the manual switch; otherwise exactly when
      the browser is offline or the server flag is explicitly false. */
  lemma IsOfflineCases(b: Browser)
    requires b.hasWindow
    ensures b.manualOffline ==> IsOffline(b)
    ensures !b.manualOffline ==> (IsOffline(b) <==> !b.browserOnline || b.serverOnline == Some(false))
    ensures b.browserOnline && b.serverOnline.None? && !b.manualOffline ==> !IsOffline(b)
  {
  }

  /** The window's `online` and `offline` listeners set the server flag. */
  function BackOnline(b: Browser): (r: Browser)
    ensures r.serverOnline == Some(true)
    ensures r.hasWindow == b.hasWindow && r.manualOffline == b.manualOffline && r.browserOnline == b.browserOnline
  {
    b.(serverOnline := Some(true))
  }

  function GoneOffline(b: Browser): (r: Browser)
    ensures r.serverOnline == Some(false)
    ensures r.hasWindow == b.hasWindow && r.manualOffline == b.manualOffline && r.browserOnline == b.browserOnline
  {
    b.(serverOnline := Some(false))
  }

  /** After the `online` event the sync it starts goes ahead unless the
      till is switched offline by hand or the browser is still offline;
      after `offline` a window is always offline. */
  lemma OnlineEvents(b: Browser)
    ensures IsOffline(BackOnline(b)) <==> b.hasWindow && (b.manualOffline || !b.browserOnline)
    ensures b.hasWindow ==> IsOffline(GoneOffline(b))
  {
  }

  /** The quantity a line consumes: `quantity || qty || 0`. */
  function LineQty(l: Line): (q: real)
    ensures l.quantity.Val? && l.quantity.v != 0.0 ==> q == l.quantity.v
    ensures !(l.quantity.Val? && l.quantity.v != 0.0) ==> q == JsOr(l.qty, 0.0)
  {
    JsOr(l.quantity, JsOr(l.qty, 0.0))
  }

  function KeyOf(l: Line): StockKey
  {
    StockKey(l.itemCode, l.warehouse)
  }

  /** `currentStock?.qty || 0`, which is also `getLocalStock`. */
  function StoredQty(stock: map<StockKey, StockEntry>, k: StockKey): (q: real)
    ensures k !in stock ==> q == 0.0
    ensures k in stock ==> q == stock[k].qty
  {
    if k in stock then Or(stock[k].qty, 0.0) else 0.0
  }

  /** The stock table after `updateLocalStock` has rewritten one row per
      line, in order. */
  function StockAfter(stock: map<StockKey, StockEntry>, lines: seq<Line>, now: int): map<StockKey, StockEntry>
  {
    if lines == [] then stock
    else
      var before := StockAfter(stock, lines[..|lines| - 1], now);
      var l := lines[|lines| - 1];
      before[KeyOf(l) := StockEntry(StoredQty(before, KeyOf(l)) - LineQty(l), now)]
  }

  /** The total quantity the lines take from key `k`. */
  function Consumed(lines: seq<Line>, k: StockKey): real
  {
    if lines == [] then 0.0
    else Consumed(lines[..|lines| - 1], k) + (if KeyOf(lines[|lines| - 1]) == k then LineQty(lines[|lines| - 1]) else 0.0)
  }

  /** Every key ends at its stored quantity minus what the lines consume,
      with no lower bound; keys no line names are untouched. */
  lemma {:induction false} StockAfterQty(stock: map<StockKey, StockEntry>, lines: seq<Line>, now: int, k: StockKey)
    ensures StoredQty(StockAfter(stock, lines, now), k) == StoredQty(stock, k) - Consumed(lines, k)
    ensures (forall i :: 0 <= i < |lines| ==> KeyOf(lines[i]) != k) ==>
      (k in StockAfter(stock, lines, now) <==> k in stock) &&
      (k in stock ==> StockAfter(stock, lines, now)[k] == stock[k])
  {
    if lines != [] {
      StockAfterQty(stock, lines[..|lines| - 1], now, k);
    }
  }

  /** A line with a positive quantity can drive the stored stock below
      zero. */
  lemma StockCanGoNegative(k: StockKey, now: int)
    ensures var l := Line(k.code, k.warehouse, Val(2.0), Undef);
      StoredQty(StockAfter(map[], [l], now), k) == -2.0
  {
  }

  /** `saveOfflineInvoice`'s guard. */
  predicate HasItems(d: InvoiceData)
  {
    d.items.Some? && |d.items.value| > 0
  }

  /** The row `saveOfflineInvoice` adds. */
  function NewEntry(id: nat, d: InvoiceData, now: int): (e: QueueEntry)
    ensures e.id == id && e.data == d && e.timestamp == now && !e.synced && e.retryCount == Some(0)
    ensures !e.syncFailed && e.error.None?
  {
    QueueEntry(id, d, now, false, Some(0), false, None)
  }

  /** The entries the pending queries return: `synced == false`. */
  function Pending(queue: seq<QueueEntry>): (p: seq<QueueEntry>)
    ensures |p| <= |queue|
  {
    if queue == [] then []
    else Pending(queue[..|queue| - 1]) + (if queue[|queue| - 1].synced then [] else [queue[|queue| - 1]])
  }

  /** The pending entries are exactly the unsynced ones. */
  lemma {:induction false} PendingMembers(queue: seq<QueueEntry>)
    ensures forall e :: e in Pending(queue) <==> e in queue && !e.synced
  {
    if queue != [] {
      PendingMembers(queue[..|queue| - 1]);
      assert queue == queue[..|queue| - 1] + [queue[|queue| - 1]];
    }
  }

  /** A quarantined entry is still pending: it is retried by every later
      pass. */
  lemma FailedStillPending(queue: seq<QueueEntry>, e: QueueEntry)
    requires e in queue && e.syncFailed && !e.synced
    ensures e in Pending(queue)
  {
    PendingMembers(queue);
  }

  /** One pending entry after its submission. */
  function Submitted(e: QueueEntry, o: Outcome): (r: QueueEntry)
    ensures r.id == e.id && r.data == e.data && r.timestamp == e.timestamp
    ensures o == Answered(true) ==> r == e.(synced := true)
    ensures o == Answered(false) ==> r == e
    ensures o.Threw? ==> r.retryCount == Some(Coalesce(e.retryCount, 0) + 1) && r.synced == e.synced
    ensures o.Threw? ==> (r.syncFailed <==> e.syncFailed || Coalesce(e.retryCount, 0) >= RetryThreshold)
  {
    match o
    case Answered(m) => if m then e.(synced := true) else e
    case Threw(msg) =>
      var bumped := e.(retryCount := Some(Coalesce(e.retryCount, 0) + 1));
      if Coalesce(e.retryCount, 0) >= RetryThreshold then bumped.(syncFailed := true, error := Some(msg))
      else bumped
  }

  /** The queue after every pending entry has been submitted once, in
      order; `respond` is the server's answer per entry id. */
  function SubmitAll(queue: seq<QueueEntry>, respond: nat -> Outcome): (q: seq<QueueEntry>)
    ensures |q| == |queue|
    ensures forall i :: 0 <= i < |queue| ==>
      q[i] == if queue[i].synced then queue[i] else Submitted(queue[i], respond(queue[i].id))
  {
    if queue == [] then []
    else
      var e := queue[|queue| - 1];
      SubmitAll(queue[..|queue| - 1], respond) + [if e.synced then e else Submitted(e, respond(e.id))]
  }

  /** The counters: pending entries answered truthily, pending entries
      whose submission threw. */
  function Successes(queue: seq<QueueEntry>, respond: nat -> Outcome): nat
  {
    if queue == [] then 0
    else
      var e := queue[|queue| - 1];
      Successes(queue[..|queue| - 1], respond) + (if !e.synced && respond(e.id) == Answered(true) then 1 else 0)
  }

  function Failures(queue: seq<QueueEntry>, respond: nat -> Outcome): nat
  {
    if queue == [] then 0
    else
      var e := queue[|queue| - 1];
      Failures(queue[..|queue| - 1], respond) + (if !e.synced && respond(e.id).Threw? then 1 else 0)
  }

  /** Each pending entry is counted at most once. */
  lemma {:induction false} CountsBounded(queue: seq<QueueEntry>, respond: nat -> Outcome)
    ensures Successes(queue, respond) + Failures(queue, respond) <= |Pending(queue)|
  {
    if queue != [] {
      CountsBounded(queue[..|queue| - 1], respond);
    }
  }

  /** The clean-up: synced entries older than a week are deleted. */
  function Purged(queue: seq<QueueEntry>, weekAgo: int): (q: seq<QueueEntry>)
    ensures |q| <= |queue|
  {
    if queue == [] then []
    else
      var e := queue[|queue| - 1];
      Purged(queue[..|queue| - 1], weekAgo) + (if e.synced && e.timestamp < weekAgo then [] else [e])
  }

  /** The clean-up deletes exactly the synced entries older than a week. */
  lemma {:induction false} PurgedMembers(queue: seq<QueueEntry>, weekAgo: int)
    ensures forall e :: e in Purged(queue, weekAgo) <==> e in queue && !(e.synced && e.timestamp < weekAgo)
  {
    if queue != [] {
      PurgedMembers(queue[..|queue| - 1], weekAgo);
      assert queue == queue[..|queue| - 1] + [queue[|queue| - 1]];
    }
  }

  /** Unsynced entries survive the clean-up, whatever their age. */
  lemma {:induction false} PurgeKeepsPending(queue: seq<QueueEntry>, weekAgo: int)
    ensures Pending(Purged(queue, weekAgo)) == Pending(queue)
  {
    if queue != [] {
      PurgeKeepsPending(queue[..|queue| - 1], weekAgo);
      var e := queue[|queue| - 1];
      var p := Purged(queue[..|queue| - 1], weekAgo);
      assert queue == queue[..|queue| - 1] + [e];
      PendingSnoc(queue[..|queue| - 1], e);
      if !(e.synced && e.timestamp < weekAgo) {
        PendingSnoc(p, e);
      } else {
        assert Purged(queue, weekAgo) == p;
        assert Pending(queue) == Pending(queue[..|queue| - 1]);
      }
    }
  }

  lemma PendingSnoc(p: seq<QueueEntry>, e: QueueEntry)
    ensures Pending(p + [e]) == Pending(p) + (if e.synced then [] else [e])
  {
    assert (p + [e])[..|p + [e]| - 1] == p;
  }

  /** The answer of `syncOfflineInvoices`. */
  datatype SyncResult = SyncResult(success: nat, failed: nat)

  /** `syncOfflineInvoices` as a transition on the queue. */
  function Sync(queue: seq<QueueEntry>, b: Browser, respond: nat -> Outcome, now: int): (seq<QueueEntry>, SyncResult)
  {
    if IsOffline(b) || |Pending(queue)| == 0 then (queue, SyncResult(0, 0))
    else (Purged(SubmitAll(queue, respond), now - WeekMs),
          SyncResult(Successes(queue, respond), Failures(queue, respond)))
  }

  /** Offline, or with nothing pending, the pass reports nothing and the
      queue is untouched; otherwise the counts never exceed what was
      pending. */
  lemma SyncFacts(queue: seq<QueueEntry>, b: Browser, respond: nat -> Outcome, now: int)
    ensures IsOffline(b) || |Pending(queue)| == 0 ==> Sync(queue, b, respond, now) == (queue, SyncResult(0, 0))
    ensures Sync(queue, b, respond, now).1.success + Sync(queue, b, respond, now).1.failed <= |Pending(queue)|
  {
    CountsBounded(queue, respond);
  }

  /** An entry that fails for the fourth time is quarantined; the first
      three failures only count. */
  lemma QuarantineOnFourthFailure(e: QueueEntry, msg: string)
    requires !e.syncFailed
    ensures var r := Submitted(Submitted(Submitted(Submitted(e.(retryCount := Some(0)), Threw(msg)), Threw(msg)), Threw(msg)), Threw(msg));
      r.syncFailed && r.retryCount == Some(4)
    ensures !Submitted(Submitted(Submitted(e.(retryCount := Some(0)), Threw(msg)), Threw(msg)), Threw(msg)).syncFailed
  {
  }

  // ----- The `synced` index as written -----

  /** `where('synced').equals(v)` on the `synced` index. IndexedDB keys are
      numbers, dates, strings, binaries and arrays of them; a boolean is
      none of these, so Dexie rejects the query with a `DataError` (and an
      entry whose `synced` is a boolean is not in that index anyway). */
  function SyncedQueryAsWritten(queue: seq<QueueEntry>, v: bool): (r: Result<seq<QueueEntry>>)
    ensures r.Err?
  {
    Err("DataError")
  }

  /** `getOfflineInvoices` as written: a rejected query lands in the catch,
      which returns []. */
  function GetOfflineInvoicesAsWritten(queue: seq<QueueEntry>): seq<QueueEntry>
  {
    match SyncedQueryAsWritten(queue, false)
    case Ok(rows) => rows
    case Err(_) => []
  }

  /** `getOfflineInvoiceCount` as written: a rejected query returns 0. */
  function GetOfflineInvoiceCountAsWritten(queue: seq<QueueEntry>): nat
  {
    match SyncedQueryAsWritten(queue, false)
    case Ok(rows) => |rows|
    case Err(_) => 0
  }

  /** `syncOfflineInvoices` as written: the submission loop runs only over
      what the pending query returned, and the clean-up query, outside any
      try, would reject the whole call. */
  function SyncAsWritten(queue: seq<QueueEntry>, b: Browser, respond: nat -> Outcome, now: int): Result<(seq<QueueEntry>, SyncResult)>
  {
    var pending := GetOfflineInvoicesAsWritten(queue);
    if IsOffline(b) || |pending| == 0 then Ok((queue, SyncResult(0, 0)))
    else
      match SyncedQueryAsWritten(SubmitAll(queue, respond), true)
      case Err(m) => Err(m)
      case Ok(_) => Ok(Sync(queue, b, respond, now))
  }

  /** As written the pending queries find nothing, so a sync reports
      {0, 0} and leaves every queued invoice unsynced, however the server
      would answer and whatever the queue holds. */
  lemma SyncAsWrittenStuck(queue: seq<QueueEntry>, b: Browser, respond: nat -> Outcome, now: int)
    ensures GetOfflineInvoicesAsWritten(queue) == [] && GetOfflineInvoiceCountAsWritten(queue) == 0
    ensures SyncAsWritten(queue, b, respond, now) == Ok((queue, SyncResult(0, 0)))
    ensures forall e :: e in queue && !e.synced ==> e in SyncAsWritten(queue, b, respond, now).value.0
  {
  }

  /** A server that accepts every invoice. */
  function AlwaysAnswered(id: nat): Outcome
  {
    Answered(true)
  }

  /** Against a server accepting everything, every pending entry is
      submitted, counted as a success and marked synced. */
  lemma {:induction false} AllAnswered(queue: seq<QueueEntry>)
    ensures Successes(queue, AlwaysAnswered) == |Pending(queue)|
    ensures Failures(queue, AlwaysAnswered) == 0
    ensures Pending(SubmitAll(queue, AlwaysAnswered)) == []
  {
    if queue != [] {
      var front := queue[..|queue| - 1];
      var e := queue[|queue| - 1];
      AllAnswered(front);
      assert queue == front + [e];
      PendingSnoc(front, e);
      var s := SubmitAll(front, AlwaysAnswered);
      var last := if e.synced then e else Submitted(e, AlwaysAnswered(e.id));
      assert SubmitAll(queue, AlwaysAnswered) == s + [last];
      PendingSnoc(s, last);
    }
  }

  /** With the pending query read as the filter `synced === false`, an
      online sync against a server accepting everything submits every
      pending invoice, reports each as a success and leaves none pending. */
  lemma SyncSubmitsPending(queue: seq<QueueEntry>, b: Browser, now: int)
    requires !IsOffline(b)
    ensures Sync(queue, b, AlwaysAnswered, now).1 == SyncResult(|Pending(queue)|, 0)
    ensures Pending(Sync(queue, b, AlwaysAnswered, now).0) == []
  {
    AllAnswered(queue);
    PurgeKeepsPending(SubmitAll(queue, AlwaysAnswered), now - WeekMs);
  }
}

module OfflineSync {
  import opened Common
  import opened OfflineSyncModel

  /** The `invoice_queue`, `payment_queue` and `stock` tables. Ids are the
      auto-increment keys of each queue, counted separately. */
  class OfflineStore {
    var queue: seq<QueueEntry>
    var nextId: nat
    var stock: map<StockKey, StockEntry>
    var payments: seq<(nat, int)>
    var nextPaymentId: nat

    constructor()
      ensures queue == [] && nextId == 0 && stock == map[] && payments == [] && nextPaymentId == 0
    {
      queue := [];
      nextId := 0;
      stock := map[];
      payments := [];
      nextPaymentId := 0;
    }

    /** `saveOfflineInvoice`: an invoice without lines is refused; otherwise
        one new unsynced entry is queued and the local stock consumed. */
    method SaveOfflineInvoice(d: InvoiceData, now: int) returns (r: Result<bool>)
      modifies this`queue, this`nextId, this`stock
      ensures !HasItems(d) ==> r == Err("Cannot save empty invoice") && unchanged(this)
      ensures HasItems(d) ==>
        r == Ok(true) && queue == old(queue) + [NewEntry(old(nextId), d, now)] &&
        nextId == old(nextId) + 1 && stock == StockAfter(old(stock), d.items.value, now)
    {
      if d.items.None? || |d.items.value| == 0 {
        return Err("Cannot save empty invoice");
      }
      queue := queue + [NewEntry(nextId, d, now)];
      nextId := nextId + 1;
      UpdateLocalStock(d.items.value, now);
      return Ok(true);
    }

    /** `updateLocalStock`: one read-modify-write per line. */
    method UpdateLocalStock(lines: seq<Line>, now: int)
      modifies this`stock
      ensures stock == StockAfter(old(stock), lines, now)
    {
      var i := 0;
      ghost var s0 := stock;
      while i < |lines|
        invariant 0 <= i <= |lines| && stock == StockAfter(s0, lines[..i], now)
      {
        assert lines[..i + 1][..i] == lines[..i];
        var k := KeyOf(lines[i]);
        var current := if k in stock then Or(stock[k].qty, 0.0) else 0.0;
        stock := stock[k := StockEntry(current - LineQty(lines[i]), now)];
        i := i + 1;
      }
      assert lines[..i] == lines;
    }

    /** `getOfflineInvoices`. */
    method GetOfflineInvoices() returns (p: seq<QueueEntry>)
      ensures p == Pending(queue)
    {
      p := [];
      var i := 0;
      while i < |queue|
        invariant 0 <= i <= |queue| && p == Pending(queue[..i])
      {
        assert queue[..i + 1][..i] == queue[..i];
        if !queue[i].synced {
          p := p + [queue[i]];
        }
        i := i + 1;
      }
      assert queue[..i] == queue;
    }

    /** `getOfflineInvoiceCount`. */
    method GetOfflineInvoiceCount() returns (n: nat)
      ensures n == |Pending(queue)|
    {
      var p := GetOfflineInvoices();
      n := |p|;
    }

    /** `getLocalStock`. */
    method GetLocalStock(k: StockKey) returns (q: real)
      ensures q == StoredQty(stock, k)
    {
      q := if k in stock then Or(stock[k].qty, 0.0) else 0.0;
    }

    /** `deleteOfflineInvoice`. */
    method DeleteOfflineInvoice(id: nat) returns (ok: bool)
      modifies this`queue
      ensures ok && forall e :: e in queue <==> e in old(queue) && e.id != id
    {
      var q := [];
      var i := 0;
      while i < |queue|
        invariant 0 <= i <= |queue|
        invariant forall e :: e in q <==> e in queue[..i] && e.id != id
      {
        assert queue[..i + 1] == queue[..i] + [queue[i]];
        if queue[i].id != id {
          q := q + [queue[i]];
        }
        i := i + 1;
      }
      assert queue[..i] == queue;
      queue := q;
      return true;
    }

    /** `saveOfflinePayment`: the payment queue gains one entry, numbered
        by its own key; the invoice queue and its key are untouched. */
    method SaveOfflinePayment(now: int)
      modifies this`payments, this`nextPaymentId
      ensures payments == old(payments) + [(old(nextPaymentId), now)] && nextPaymentId == old(nextPaymentId) + 1
    {
      payments := payments + [(nextPaymentId, now)];
      nextPaymentId := nextPaymentId + 1;
    }

    /** The submission loop of `syncOfflineInvoices` over the pending
        entries, with its two counters. */
    method SubmitPending(respond: nat -> Outcome) returns (success: nat, failed: nat)
      modifies this`queue
      ensures queue == SubmitAll(old(queue), respond)
      ensures success == Successes(old(queue), respond) && failed == Failures(old(queue), respond)
    {
      var q0 := queue;
      var out := [];
      success, failed := 0, 0;
      var i := 0;
      while i < |q0|
        invariant 0 <= i <= |q0| && out == SubmitAll(q0[..i], respond)
        invariant success == Successes(q0[..i], respond) && failed == Failures(q0[..i], respond)
      {
        assert q0[..i + 1][..i] == q0[..i];
        var e := q0[i];
        if e.synced {
          out := out + [e];
        } else {
          var o := respond(e.id);
          out := out + [Submitted(e, o)];
          if o == Answered(true) {
            success := success + 1;
          }
          if o.Threw? {
            failed := failed + 1;
          }
        }
        i := i + 1;
      }
      assert q0[..i] == q0;
      queue := out;
    }

    /** The clean-up of synced entries older than `weekAgo`. */
    method PurgeSynced(weekAgo: int)
      modifies this`queue
      ensures queue == Purged(old(queue), weekAgo)
    {
      var q := [];
      var i := 0;
      while i < |queue|
        invariant 0 <= i <= |queue| && q == Purged(queue[..i], weekAgo)
      {
        assert queue[..i + 1][..i] == queue[..i];
        if !(queue[i].synced && queue[i].timestamp < weekAgo) {
          q := q + [queue[i]];
        }
        i := i + 1;
      }
      assert queue[..i] == queue;
      queue := q;
    }

    /** `syncOfflineInvoices`. */
    method SyncOfflineInvoices(b: Browser, respond: nat -> Outcome, now: int) returns (r: SyncResult)
      modifies this`queue
      ensures (queue, r) == Sync(old(queue), b, respond, now)
    {
      if IsOffline(b) {
        return SyncResult(0, 0);
      }
      var pending := GetOfflineInvoices();
      if |pending| == 0 {
        return SyncResult(0, 0);
      }
      var success, failed := SubmitPending(respond);
      PurgeSynced(now - WeekMs);
      return SyncResult(success, failed);
    }
  }
}
