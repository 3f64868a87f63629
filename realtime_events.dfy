// The server's realtime hooks (pos_next/realtime_events.py): after a POS
// invoice that moves stock is submitted or cancelled, one
// `pos_stock_update` event carries the current Bin quantity of every
// item and warehouse on it; a new POS invoice raises `pos_invoice_created`.

module RealtimeEventsModel {
  import opened Common

  /** The fields of a Sales Invoice line the hook reads ("" when unset). */
  datatype InvoiceLine = InvoiceLine(itemCode: string, warehouse: string)

  /** The Sales Invoice passed to the hooks; `isPos` is `None` when the
      document has no such field. */
  datatype InvoiceDoc = InvoiceDoc(
    name: string, updateStock: bool, isPos: Option<bool>, items: seq<InvoiceLine>,
    grandTotal: real, customer: string, posProfile: string)

  datatype Pair = Pair(itemCode: string, warehouse: string)

  /** A row of the Bin table. */
  datatype BinRow = BinRow(itemCode: string, warehouse: string, actualQty: real)

  datatype StockUpdate = StockUpdate(itemCode: string, warehouse: string, actualQty: real, stockQty: real)

  /** The `pos_stock_update` message; the warehouses are a set, listed in
      no particular order by the source. */
  datatype StockEvent = StockEvent(
    invoiceName: string, warehouses: set<string>, updates: seq<StockUpdate>, timestamp: string, eventType: string)

  datatype CreatedEvent = CreatedEvent(invoiceName: string, grandTotal: real, customer: string, posProfile: string, timestamp: string)

  predicate Stocked(l: InvoiceLine)
  {
    l.warehouse != "" && l.itemCode != ""
  }

  /** `item_warehouse_pairs`: the lines with an item and a warehouse, in
      line order. */
  function Pairs(items: seq<InvoiceLine>): seq<Pair>
  {
    if items == [] then []
    else
      var l := items[|items| - 1];
      Pairs(items[..|items| - 1]) + (if Stocked(l) then [Pair(l.itemCode, l.warehouse)] else [])
  }

  /** The bulk Bin query: the rows of the invoice's pairs. */
  function StockData(bins: seq<BinRow>, pairs: seq<Pair>): seq<BinRow>
  {
    Filter(bins, (b: BinRow) => Pair(b.itemCode, b.warehouse) in pairs)
  }

  /** The quantity of a pair in the rows: the last row of that item and
      warehouse (a later row overwrites an earlier one in the lookup), 0
      when there is none. */
  function Lookup(rows: seq<BinRow>, p: Pair): real
  {
    if rows == [] then 0.0
    else
      var b := rows[|rows| - 1];
      if b.itemCode == p.itemCode && b.warehouse == p.warehouse then b.actualQty else Lookup(rows[..|rows| - 1], p)
  }

  /** The update loop: one update per pair, its quantity read from the
      lookup on joined keys. */
  function Updates(pairs: seq<Pair>, rows: seq<BinRow>): (us: seq<StockUpdate>)
    ensures |us| == |pairs|
  {
    seq(|pairs|, i requires 0 <= i < |pairs| =>
      StockUpdate(pairs[i].itemCode, pairs[i].warehouse, LookupAsWritten(rows, pairs[i]), LookupAsWritten(rows, pairs[i])))
  }

  function WarehousesOf(pairs: seq<Pair>): set<string>
  {
    set p | p in pairs :: p.warehouse
  }

  function EventType(hook: string): string
  {
    if hook == "on_cancel" then "cancel" else "submit"
  }

  /** `emit_stock_update_event`: the event it publishes, if any. */
  function EmitStockUpdate(doc: InvoiceDoc, hook: string, bins: seq<BinRow>, now: string): Option<StockEvent>
  {
    var pairs := Pairs(doc.items);
    if !doc.updateStock || doc.isPos == Some(false) || pairs == [] then None
    else
      Some(StockEvent(doc.name, WarehousesOf(pairs), Updates(pairs, StockData(bins, pairs)), now, EventType(hook)))
  }

  /** `emit_invoice_created_event`; reading `is_pos` on a document without
      it raises. */
  function EmitInvoiceCreated(doc: InvoiceDoc, now: string): Result<Option<CreatedEvent>>
  {
    if doc.isPos.None? then Err("'Sales Invoice' object has no attribute 'is_pos'")
    else if !doc.isPos.value then Ok(None)
    else Ok(Some(CreatedEvent(doc.name, doc.grandTotal, doc.customer, doc.posProfile, now)))
  }

  /** The pairs are exactly the lines with both an item and a warehouse. */
  lemma {:induction false} PairsFacts(items: seq<InvoiceLine>)
    ensures |Pairs(items)| <= |items|
    ensures forall p :: p in Pairs(items) <==> exists l :: l in items && Stocked(l) && p == Pair(l.itemCode, l.warehouse)
    ensures Pairs(items) == [] <==> forall l :: l in items ==> !Stocked(l)
  {
    if items != [] {
      PairsFacts(items[..|items| - 1]);
      assert items == items[..|items| - 1] + [items[|items| - 1]];
    }
  }

  /** Restricting the Bin table to the invoice's pairs does not change the
      quantity of any of those pairs. */
  lemma {:induction false} LookupStockData(bins: seq<BinRow>, pairs: seq<Pair>, p: Pair)
    requires p in pairs
    ensures Lookup(StockData(bins, pairs), p) == Lookup(bins, p)
  {
    if bins != [] {
      var front := bins[..|bins| - 1];
      var b := bins[|bins| - 1];
      LookupStockData(front, pairs, p);
      var sd := StockData(bins, pairs);
      if Pair(b.itemCode, b.warehouse) in pairs {
        assert sd == StockData(front, pairs) + [b];
        assert sd[..|sd| - 1] == StockData(front, pairs);
      } else {
        assert sd == StockData(front, pairs);
      }
    }
  }

  /** No event is published for an invoice that does not update stock, an
      invoice marked as not POS, or one without any line holding both an
      item and a warehouse; otherwise exactly one is. */
  lemma NoEventFacts(doc: InvoiceDoc, hook: string, bins: seq<BinRow>, now: string)
    ensures EmitStockUpdate(doc, hook, bins, now).None? <==>
      !doc.updateStock || doc.isPos == Some(false) || forall l :: l in doc.items ==> !Stocked(l)
  {
    PairsFacts(doc.items);
  }

  /** The event has one update per stocked line, in line order, each with
      that line's item and warehouse and, as both its actual and stock
      quantity, the quantity the joined-key lookup of the queried Bin rows
      gives it. The warehouses are exactly those of the stocked lines, and
      the type is "cancel" exactly for the cancel hook. */
  lemma EventFacts(doc: InvoiceDoc, hook: string, bins: seq<BinRow>, now: string)
    ensures var e := EmitStockUpdate(doc, hook, bins, now);
      var pairs := Pairs(doc.items);
      e.Some? ==>
        e.value.invoiceName == doc.name &&
        |e.value.updates| == |pairs| &&
        (forall i :: 0 <= i < |pairs| ==>
          e.value.updates[i].itemCode == pairs[i].itemCode && e.value.updates[i].warehouse == pairs[i].warehouse &&
          e.value.updates[i].actualQty == e.value.updates[i].stockQty == LookupAsWritten(StockData(bins, pairs), pairs[i])) &&
        (forall w :: w in e.value.warehouses <==> exists l :: l in doc.items && Stocked(l) && l.warehouse == w) &&
        (e.value.eventType == "cancel" <==> hook == "on_cancel")
  {
    Warehouses(doc.items);
  }

  /** The warehouses of the pairs are those of the stocked lines. */
  lemma Warehouses(items: seq<InvoiceLine>)
    ensures forall w :: w in WarehousesOf(Pairs(items)) <==> exists l :: l in items && Stocked(l) && l.warehouse == w
  {
    var pairs := Pairs(items);
    PairsFacts(items);
    forall l | l in items && Stocked(l)
      ensures exists p :: p in pairs && p.warehouse == l.warehouse
    {
      assert Pair(l.itemCode, l.warehouse) in pairs;
    }
  }

  /** When no item code holds a "|", every update of the event carries the
      Bin quantity of its item in its warehouse (0 without a Bin). */
  lemma EventBinQuantities(doc: InvoiceDoc, hook: string, bins: seq<BinRow>, now: string)
    requires NoBarCodes(bins, doc.items)
    ensures var e := EmitStockUpdate(doc, hook, bins, now);
      var pairs := Pairs(doc.items);
      e.Some? ==>
        |e.value.updates| == |pairs| &&
        (forall i :: 0 <= i < |pairs| ==> e.value.updates[i].actualQty == e.value.updates[i].stockQty == Lookup(bins, pairs[i]))
  {
    var pairs := Pairs(doc.items);
    EventFacts(doc, hook, bins, now);
    PairsFacts(doc.items);
    forall i | 0 <= i < |pairs|
      ensures LookupAsWritten(StockData(bins, pairs), pairs[i]) == Lookup(bins, pairs[i])
    {
      assert pairs[i] in pairs;
      AgreesOnQueried(bins, pairs, pairs[i]);
    }
  }

  /** No item code among the Bin rows or the invoice lines holds a "|". */
  predicate NoBarCodes(bins: seq<BinRow>, items: seq<InvoiceLine>)
  {
    (forall b :: b in bins ==> '|' !in b.itemCode) && (forall l :: l in items ==> '|' !in l.itemCode)
  }

  /** Without a "|" in the item codes, the joined-key lookup of the queried
      rows gives a pair of the invoice its Bin quantity. */
  lemma AgreesOnQueried(bins: seq<BinRow>, pairs: seq<Pair>, p: Pair)
    requires p in pairs && '|' !in p.itemCode && forall b :: b in bins ==> '|' !in b.itemCode
    ensures LookupAsWritten(StockData(bins, pairs), p) == Lookup(bins, p)
  {
    FilterMembers(bins, (b: BinRow) => Pair(b.itemCode, b.warehouse) in pairs);
    LookupAgreesWithoutBar(StockData(bins, pairs), p);
    LookupStockData(bins, pairs, p);
  }

  /** Only a POS invoice raises the created event, carrying its name,
      total, customer and profile. */
  lemma InvoiceCreatedFacts(doc: InvoiceDoc, now: string)
    ensures var r := EmitInvoiceCreated(doc, now);
      (r.Ok? <==> doc.isPos.Some?) &&
      (r.Ok? ==> (r.value.Some? <==> doc.isPos == Some(true))) &&
      (r.Ok? && r.value.Some? ==>
        r.value.value.invoiceName == doc.name && r.value.value.grandTotal == doc.grandTotal &&
        r.value.value.customer == doc.customer && r.value.value.posProfile == doc.posProfile)
  {
  }

  // ---------------------------------------------------------------------
  // The lookup as written: keys joined with "|"

  /** `f"{item_code}|{warehouse}"`. */
  function BinKey(itemCode: string, warehouse: string): string
  {
    itemCode + "|" + warehouse
  }

  /** The lookup as the source builds it, on joined string keys: two pairs
      whose joined keys coincide share one entry. */
  function LookupAsWritten(rows: seq<BinRow>, p: Pair): real
  {
    if rows == [] then 0.0
    else
      var b := rows[|rows| - 1];
      if BinKey(b.itemCode, b.warehouse) == BinKey(p.itemCode, p.warehouse) then b.actualQty
      else LookupAsWritten(rows[..|rows| - 1], p)
  }

  /** `lookup.get(key, 0)`. */
  function Get(lookup: map<string, real>, key: string): real
  {
    if key in lookup then lookup[key] else 0.0
  }

  /** An item "A|B" in warehouse "C" and an item "A" in warehouse "B|C"
      share the key "A|B|C": the second pair, which has no Bin, is
      reported with the first one's quantity instead of 0. */
  lemma KeyCollision()
    ensures var rows := [BinRow("A|B", "C", 5.0)];
      LookupAsWritten(rows, Pair("A", "B|C")) == 5.0 && Lookup(rows, Pair("A", "B|C")) == 0.0
  {
    var rows := [BinRow("A|B", "C", 5.0)];
    assert BinKey("A|B", "C") == BinKey("A", "B|C");
    assert rows[..0] == [];
  }

  /** The collision reaches the event: an invoice selling item "A|B" from
      warehouse "C" and item "A" from warehouse "B|C", with a Bin only for
      the first, reports 5 for the second line too. */
  lemma EventKeyCollision(hook: string, now: string)
    ensures var doc := InvoiceDoc("SINV-1", true, Some(true), [InvoiceLine("A|B", "C"), InvoiceLine("A", "B|C")], 0.0, "", "");
      var bins := [BinRow("A|B", "C", 5.0)];
      var e := EmitStockUpdate(doc, hook, bins, now);
      e.Some? && |e.value.updates| == 2 && e.value.updates[1].actualQty == 5.0 && Lookup(bins, Pair("A", "B|C")) == 0.0
  {
    var items := [InvoiceLine("A|B", "C"), InvoiceLine("A", "B|C")];
    var bins := [BinRow("A|B", "C", 5.0)];
    assert items[..1][..0] == [] && items[..1] == [InvoiceLine("A|B", "C")];
    var pairs := [Pair("A|B", "C"), Pair("A", "B|C")];
    assert Pairs(items) == pairs;
    assert bins[..0] == [];
    assert StockData(bins, pairs) == bins;
    KeyCollision();
  }

  /** The joined key determines the pair when item codes hold no "|". */
  lemma {:induction false} BinKeyInjective(i1: string, w1: string, i2: string, w2: string)
    requires '|' !in i1 && '|' !in i2
    requires BinKey(i1, w1) == BinKey(i2, w2)
    ensures i1 == i2 && w1 == w2
  {
    FirstBarOfKey(i1, w1);
    FirstBarOfKey(i2, w2);
    assert i1 == BinKey(i1, w1)[..|i1|];
    assert i2 == BinKey(i2, w2)[..|i2|];
    assert w1 == BinKey(i1, w1)[|i1| + 1..];
    assert w2 == BinKey(i2, w2)[|i2| + 1..];
  }

  /** The position of the first "|" in a string (its length when none). */
  function FirstBar(s: string): nat
  {
    if s == [] || s[0] == '|' then 0 else 1 + FirstBar(s[1..])
  }

  /** In a joined key the first "|" follows the item code, when the item
      code holds none. */
  lemma {:induction false} FirstBarOfKey(i: string, w: string)
    requires '|' !in i
    ensures FirstBar(BinKey(i, w)) == |i|
  {
    if i != [] {
      assert BinKey(i, w)[1..] == BinKey(i[1..], w);
      assert i[0] in i;
      FirstBarOfKey(i[1..], w);
    }
  }

  /** When no item code holds a "|", the lookup as written agrees with the
      lookup by item and warehouse. */
  lemma {:induction false} LookupAgreesWithoutBar(rows: seq<BinRow>, p: Pair)
    requires '|' !in p.itemCode && forall b :: b in rows ==> '|' !in b.itemCode
    ensures LookupAsWritten(rows, p) == Lookup(rows, p)
  {
    if rows != [] {
      var b := rows[|rows| - 1];
      if BinKey(b.itemCode, b.warehouse) == BinKey(p.itemCode, p.warehouse) {
        BinKeyInjective(b.itemCode, b.warehouse, p.itemCode, p.warehouse);
      }
      assert forall c :: c in rows[..|rows| - 1] ==> c in rows;
      LookupAgreesWithoutBar(rows[..|rows| - 1], p);
    }
  }
}

module RealtimeEvents {
  import opened Common
  import opened RealtimeEventsModel

  /** `emit_stock_update_event`: the pair loop, the lookup built from the
      bulk query, and the update loop collecting the warehouses. */
  method EmitStockUpdateEvent(doc: InvoiceDoc, hook: string, bins: seq<BinRow>, now: string) returns (e: Option<StockEvent>)
    ensures e == EmitStockUpdate(doc, hook, bins, now)
  {
    if !doc.updateStock || doc.isPos == Some(false) {
      return None;
    }
    var pairs: seq<Pair> := [];
    var i := 0;
    while i < |doc.items|
      invariant 0 <= i <= |doc.items|
      invariant pairs == Pairs(doc.items[..i])
    {
      assert doc.items[..i + 1][..i] == doc.items[..i];
      var line := doc.items[i];
      if line.warehouse != "" && line.itemCode != "" {
        pairs := pairs + [Pair(line.itemCode, line.warehouse)];
      }
      i := i + 1;
    }
    assert doc.items[..|doc.items|] == doc.items;
    if pairs == [] {
      return None;
    }
    var stockData := StockData(bins, pairs);
    var lookup := BuildLookup(stockData);
    var updates: seq<StockUpdate> := [];
    var warehouses: set<string> := {};
    i := 0;
    while i < |pairs|
      invariant 0 <= i <= |pairs|
      invariant updates == Updates(pairs[..i], stockData)
      invariant warehouses == WarehousesOf(pairs[..i])
    {
      var p := pairs[i];
      var key := BinKey(p.itemCode, p.warehouse);
      var qty := Get(lookup, key);
      updates := updates + [StockUpdate(p.itemCode, p.warehouse, qty, qty)];
      warehouses := warehouses + {p.warehouse};
      assert pairs[..i + 1] == pairs[..i] + [p];
      i := i + 1;
    }
    assert pairs[..|pairs|] == pairs;
    return Some(StockEvent(doc.name, warehouses, updates, now, if hook == "on_cancel" then "cancel" else "submit"));
  }

  /** The `stock_lookup` comprehension, keyed by the joined item and
      warehouse: `get(key, 0)` on it is the joined-key lookup. */
  method BuildLookup(rows: seq<BinRow>) returns (lookup: map<string, real>)
    ensures forall p: Pair :: Get(lookup, BinKey(p.itemCode, p.warehouse)) == LookupAsWritten(rows, p)
  {
    lookup := map[];
    var i := 0;
    while i < |rows|
      invariant 0 <= i <= |rows|
      invariant forall p: Pair :: Get(lookup, BinKey(p.itemCode, p.warehouse)) == LookupAsWritten(rows[..i], p)
    {
      assert rows[..i + 1][..i] == rows[..i];
      lookup := lookup[BinKey(rows[i].itemCode, rows[i].warehouse) := rows[i].actualQty];
      i := i + 1;
    }
    assert rows[..|rows|] == rows;
  }
}
