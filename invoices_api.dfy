// The invoice endpoints of the POS server (pos_next/api/invoices.py): stock
// checks before a sale, return-quantity checks, the return search's
// paging, draft deletion and the sign of return payments.

module InvoicesApiModel {
  import opened Common

  /** `flt(x)`: a missing number is 0. */
  function Flt(x: Option<real>): real
  {
    if x.Some? then x.value else 0.0
  }

  // ----- stock validation -----

  /** An invoice or cart row as the stock check reads it; empty strings
      are missing fields. */
  datatype StockRow = StockRow(
    itemCode: string, warehouse: string, batchNo: string,
    qty: Option<real>, stockQty: Option<real>, conversionFactor: Option<real>)

  /** The stock figures the check looks up: a batch's quantity in a
      warehouse and the Bin's actual quantity (0 when there is no Bin). */
  datatype StockSource = StockSource(batchQty: (string, string) -> real, binQty: (string, string) -> real)

  datatype StockError = StockError(itemCode: string, warehouse: string, requested: real, available: real)

  /** `_get_available_stock`. */
  function AvailableStock(d: StockRow, src: StockSource): (q: real)
    ensures d.itemCode == "" || d.warehouse == "" ==> q == 0.0
    ensures d.itemCode != "" && d.warehouse != "" && d.batchNo != "" ==> q == src.batchQty(d.batchNo, d.warehouse)
    ensures d.itemCode != "" && d.warehouse != "" && d.batchNo == "" ==> q == src.binQty(d.itemCode, d.warehouse)
  {
    if d.itemCode == "" || d.warehouse == "" then 0.0
    else if d.batchNo != "" then src.batchQty(d.batchNo, d.warehouse)
    else src.binQty(d.itemCode, d.warehouse)
  }

  /** The stock quantity a row asks for: its stock quantity when set,
      else its quantity times its conversion factor (1 when unset). */
  function Requested(d: StockRow): (q: real)
    ensures Flt(d.stockQty) != 0.0 ==> q == Flt(d.stockQty)
    ensures Flt(d.stockQty) == 0.0 && Flt(d.conversionFactor) == 0.0 ==> q == Flt(d.qty)
  {
    if Flt(d.stockQty) != 0.0 then Flt(d.stockQty)
    else Flt(d.qty) * (if Flt(d.conversionFactor) != 0.0 then Flt(d.conversionFactor) else 1.0)
  }

  /** A row that asks for more stock than there is; negative rows
      (returns) are never short. */
  predicate Short(d: StockRow, src: StockSource)
  {
    Flt(d.qty) >= 0.0 && Requested(d) > AvailableStock(d, src)
  }

  function ErrorOf(d: StockRow, src: StockSource): StockError
  {
    StockError(d.itemCode, d.warehouse, Requested(d), AvailableStock(d, src))
  }

  /** `_collect_stock_errors`. */
  function StockErrors(items: seq<StockRow>, src: StockSource): (errs: seq<StockError>)
    ensures |errs| <= |items|
  {
    if items == [] then []
    else
      var d := items[|items| - 1];
      StockErrors(items[..|items| - 1], src) + (if Short(d, src) then [ErrorOf(d, src)] else [])
  }

  /** The errors are exactly the short rows' errors, in input order. */
  lemma {:induction false} StockErrorsFacts(items: seq<StockRow>, src: StockSource)
    ensures var short := Filter(items, (d: StockRow) => Short(d, src));
      |StockErrors(items, src)| == |short| &&
      forall i :: 0 <= i < |short| ==> StockErrors(items, src)[i] == ErrorOf(short[i], src)
  {
    if items != [] {
      StockErrorsFacts(items[..|items| - 1], src);
    }
  }

  /** No error without a short row, and one for each short row. */
  lemma StockErrorsEmpty(items: seq<StockRow>, src: StockSource)
    ensures StockErrors(items, src) == [] <==> forall i :: 0 <= i < |items| ==> !Short(items[i], src)
  {
    var p := (d: StockRow) => Short(d, src);
    StockErrorsFacts(items, src);
    FilterMembers(items, p);
    if StockErrors(items, src) == [] {
      forall i | 0 <= i < |items|
        ensures !Short(items[i], src)
      {
        assert items[i] in items;
        assert items[i] !in Filter(items, p);
      }
    } else {
      var short := Filter(items, p);
      assert short[0] in short;
      var k :| 0 <= k < |items| && items[k] == short[0];
      assert Short(items[k], src);
    }
  }

  /** `_should_block` as written: `cint(value or 1)` turns a profile's 0
      ("do not block") back into 1. */
  function ShouldBlockAsWritten(allowNegative: int, profile: string, profileValue: Option<int>): bool
  {
    if allowNegative != 0 then false
    else
      var block := if profile == "" then 1 else if profileValue.Some? && profileValue.value != 0 then profileValue.value else 1;
      block != 0
  }

  /** `_should_block` as intended: a profile value, when present, decides;
      without one a sale is blocked. */
  function ShouldBlock(allowNegative: int, profile: string, profileValue: Option<int>): bool
  {
    if allowNegative != 0 then false
    else if profile != "" && profileValue.Some? then profileValue.value != 0
    else true
  }

  /** As written no profile can turn blocking off. */
  lemma ShouldBlockAsWrittenFacts(allowNegative: int, profile: string, profileValue: Option<int>)
    ensures ShouldBlockAsWritten(allowNegative, profile, profileValue) <==> allowNegative == 0
  {
  }

  /** As intended blocking is off when negative stock is allowed or the
      profile says 0, and agrees with the code everywhere else. */
  lemma ShouldBlockFacts(allowNegative: int, profile: string, profileValue: Option<int>)
    ensures !ShouldBlock(allowNegative, profile, profileValue) <==>
      allowNegative != 0 || (profile != "" && profileValue == Some(0))
    ensures profileValue != Some(0) ==>
      ShouldBlock(allowNegative, profile, profileValue) == ShouldBlockAsWritten(allowNegative, profile, profileValue)
  {
  }

  /** `validate_cart_items`: an unknown profile counts as none. */
  function ValidateCartItems(items: seq<StockRow>, profile: string, profileExists: string -> bool,
                             allowNegative: int, profileValue: Option<int>, src: StockSource): seq<StockError>
  {
    var p := if profile != "" && !profileExists(profile) then "" else profile;
    if !ShouldBlockAsWritten(allowNegative, p, profileValue) then [] else StockErrors(items, src)
  }

  /** As written the profile cannot turn blocking off, so the cart is
      checked exactly when negative stock is not allowed. */
  lemma ValidateCartItemsFacts(items: seq<StockRow>, profile: string, profileExists: string -> bool,
                               allowNegative: int, profileValue: Option<int>, src: StockSource)
    ensures ValidateCartItems(items, profile, profileExists, allowNegative, profileValue, src) ==
      (if allowNegative == 0 then StockErrors(items, src) else [])
  {
    var p := if profile != "" && !profileExists(profile) then "" else profile;
    ShouldBlockAsWrittenFacts(allowNegative, p, profileValue);
  }

  /** An invoice line as `_validate_stock_on_invoice` sees it. */
  datatype InvoiceLine = InvoiceLine(row: StockRow, isStockItem: bool)

  function StockLines(lines: seq<InvoiceLine>): (rows: seq<StockRow>)
    ensures |rows| <= |lines|
  {
    if lines == [] then []
    else StockLines(lines[..|lines| - 1]) + (if lines[|lines| - 1].isStockItem then [lines[|lines| - 1].row] else [])
  }

  /** `_validate_stock_on_invoice`: `Some(errors)` is the error it throws. A
      Sales Invoice that does not update stock is not checked; packed
      items are checked after the stock lines. */
  function StockCheckOnInvoice(isSalesInvoice: bool, updateStock: bool, lines: seq<InvoiceLine>, packed: seq<StockRow>,
                               allowNegative: int, profile: string, profileValue: Option<int>,
                               src: StockSource): Option<seq<StockError>>
  {
    if isSalesInvoice && !updateStock then None
    else
      var errors := StockErrors(StockLines(lines) + packed, src);
      if errors != [] && ShouldBlockAsWritten(allowNegative, profile, profileValue) then Some(errors) else None
  }

  lemma StockCheckOnInvoiceFacts(isSalesInvoice: bool, updateStock: bool, lines: seq<InvoiceLine>, packed: seq<StockRow>,
                                 allowNegative: int, profile: string, profileValue: Option<int>, src: StockSource)
    ensures var r := StockCheckOnInvoice(isSalesInvoice, updateStock, lines, packed, allowNegative, profile, profileValue, src);
      r.Some? <==>
        !(isSalesInvoice && !updateStock) && allowNegative == 0 &&
        exists i :: 0 <= i < |StockLines(lines) + packed| && Short((StockLines(lines) + packed)[i], src)
  {
    var all := StockLines(lines) + packed;
    ShouldBlockAsWrittenFacts(allowNegative, profile, profileValue);
    StockErrorsEmpty(all, src);
    var r := StockCheckOnInvoice(isSalesInvoice, updateStock, lines, packed, allowNegative, profile, profileValue, src);
    assert r.Some? <==> !(isSalesInvoice && !updateStock) && StockErrors(all, src) != [] && allowNegative == 0;
    if StockErrors(all, src) != [] {
      var i :| 0 <= i < |all| && Short(all[i], src);
      assert 0 <= i < |StockLines(lines) + packed| && Short((StockLines(lines) + packed)[i], src);
      assert exists j :: 0 <= j < |StockLines(lines) + packed| && Short((StockLines(lines) + packed)[j], src);
      assert r.Some? <==> !(isSalesInvoice && !updateStock) && allowNegative == 0;
    }
  }

  // ----- validate_return_items -----

  /** An item code and a quantity, as an invoice row carries them. */
  datatype QtyRow = QtyRow(itemCode: string, qty: real)

  /** The quantity sold per item code. */
  function Sold(rows: seq<QtyRow>): map<string, real>
  {
    if rows == [] then map[]
    else
      var m := Sold(rows[..|rows| - 1]);
      var d := rows[|rows| - 1];
      m[d.itemCode := (if d.itemCode in m then m[d.itemCode] else 0.0) + d.qty]
  }

  /** The returned rows subtracted, by absolute quantity, from the codes
      that were sold. */
  function Deduct(m: map<string, real>, returned: seq<QtyRow>): map<string, real>
  {
    if returned == [] then m
    else
      var r := Deduct(m, returned[..|returned| - 1]);
      var d := returned[|returned| - 1];
      if d.itemCode in r then r[d.itemCode := r[d.itemCode] - AbsReal(d.qty)] else r
  }

  /** The total quantity of `code` over `rows`. */
  function QtyOf(rows: seq<QtyRow>, code: string): real
  {
    if rows == [] then 0.0
    else QtyOf(rows[..|rows| - 1], code) + (if rows[|rows| - 1].itemCode == code then rows[|rows| - 1].qty else 0.0)
  }

  /** The total absolute quantity of `code` over `rows`. */
  function AbsQtyOf(rows: seq<QtyRow>, code: string): real
  {
    if rows == [] then 0.0
    else AbsQtyOf(rows[..|rows| - 1], code) + (if rows[|rows| - 1].itemCode == code then AbsReal(rows[|rows| - 1].qty) else 0.0)
  }

  lemma {:induction false} SoldFacts(rows: seq<QtyRow>)
    ensures forall c :: c in Sold(rows) <==> exists i :: 0 <= i < |rows| && rows[i].itemCode == c
    ensures forall c :: c in Sold(rows) ==> Sold(rows)[c] == QtyOf(rows, c)
    ensures forall c :: c !in Sold(rows) ==> QtyOf(rows, c) == 0.0
  {
    if rows != [] {
      var front := rows[..|rows| - 1];
      SoldFacts(front);
      forall c | exists i :: 0 <= i < |rows| && rows[i].itemCode == c
        ensures c in Sold(rows)
      {
        var i :| 0 <= i < |rows| && rows[i].itemCode == c;
        if i < |front| {
          assert front[i].itemCode == c;
        }
      }
      forall c | c in Sold(rows)
        ensures exists i :: 0 <= i < |rows| && rows[i].itemCode == c
      {
        if c != rows[|rows| - 1].itemCode {
          assert c in Sold(front);
          var i :| 0 <= i < |front| && front[i].itemCode == c;
          assert rows[i].itemCode == c;
        }
      }
    }
  }

  lemma {:induction false} DeductFacts(m: map<string, real>, returned: seq<QtyRow>)
    ensures Deduct(m, returned).Keys == m.Keys
    ensures forall c :: c in m ==> Deduct(m, returned)[c] == m[c] - AbsQtyOf(returned, c)
  {
    if returned != [] {
      DeductFacts(m, returned[..|returned| - 1]);
    }
  }

  /** What `validate_return_items` answers. */
  datatype ReturnValidity = ReturnValid | ReturnInvalid(message: string)

  function OverReturnMessage(code: string): string
  {
    "You are trying to return more quantity for item " + code + " than was sold."
  }

  /** The first requested row returning more of a sold code than remains. */
  function FirstOverReturn(remaining: map<string, real>, requests: seq<QtyRow>): ReturnValidity
  {
    if requests == [] then ReturnValid
    else
      var d := requests[0];
      if d.itemCode in remaining && AbsReal(d.qty) > remaining[d.itemCode] then ReturnInvalid(OverReturnMessage(d.itemCode))
      else FirstOverReturn(remaining, requests[1..])
  }

  /** `validate_return_items`: `original` is the original invoice's rows
      and `returned` those of its submitted returns. */
  function ValidateReturnItems(original: seq<QtyRow>, returned: seq<QtyRow>, requests: seq<QtyRow>): ReturnValidity
  {
    FirstOverReturn(Deduct(Sold(original), returned), requests)
  }

  predicate Exceeds(original: seq<QtyRow>, returned: seq<QtyRow>, d: QtyRow)
  {
    (exists i :: 0 <= i < |original| && original[i].itemCode == d.itemCode) &&
    AbsReal(d.qty) > QtyOf(original, d.itemCode) - AbsQtyOf(returned, d.itemCode)
  }

  lemma {:induction false} FirstOverReturnFacts(remaining: map<string, real>, requests: seq<QtyRow>)
    ensures FirstOverReturn(remaining, requests) == ReturnValid <==>
      forall i :: 0 <= i < |requests| && requests[i].itemCode in remaining ==>
        AbsReal(requests[i].qty) <= remaining[requests[i].itemCode]
  {
    if requests != [] {
      FirstOverReturnFacts(remaining, requests[1..]);
      if FirstOverReturn(remaining, requests) == ReturnValid {
        forall i | 0 <= i < |requests| && requests[i].itemCode in remaining
          ensures AbsReal(requests[i].qty) <= remaining[requests[i].itemCode]
        {
          if i > 0 {
            assert requests[i] == requests[1..][i - 1];
          }
        }
      }
    }
  }

  /** A return is refused exactly when some requested row returns more of
      a sold item than was sold minus what earlier returns took back;
      codes that were not sold pass. */
  lemma ValidateReturnItemsFacts(original: seq<QtyRow>, returned: seq<QtyRow>, requests: seq<QtyRow>)
    ensures ValidateReturnItems(original, returned, requests) == ReturnValid <==>
      forall i :: 0 <= i < |requests| ==> !Exceeds(original, returned, requests[i])
  {
    var m := Sold(original);
    SoldFacts(original);
    DeductFacts(m, returned);
    FirstOverReturnFacts(Deduct(m, returned), requests);
  }

  // ----- get_invoice_for_return -----

  /** A row of a return invoice. */
  datatype ReturnRow = ReturnRow(salesInvoiceItem: string, itemCode: string, qty: real)

  /** The returned quantity per original row reference (or item code when
      the return row has none). */
  function ReturnedByKey(rows: seq<ReturnRow>): map<string, real>
  {
    if rows == [] then map[]
    else
      var m := ReturnedByKey(rows[..|rows| - 1]);
      var d := rows[|rows| - 1];
      var key := RowKey(d);
      if key == "" then m else m[key := (if key in m then m[key] else 0.0) + AbsReal(d.qty)]
  }

  /** `item.sales_invoice_item or item.item_code`. */
  function RowKey(d: ReturnRow): string
  {
    if d.salesInvoiceItem != "" then d.salesInvoiceItem else d.itemCode
  }

  /** The total returned quantity of the rows under one key. */
  function KeyTotal(rows: seq<ReturnRow>, key: string): real
  {
    if rows == [] then 0.0
    else KeyTotal(rows[..|rows| - 1], key) + (if RowKey(rows[|rows| - 1]) == key then AbsReal(rows[|rows| - 1].qty) else 0.0)
  }

  /** The tally has a key exactly for each non-empty row key, holding the
      sum of the absolute quantities of the rows under it, which is never
      negative. */
  lemma {:induction false} ReturnedByKeyFacts(rows: seq<ReturnRow>)
    ensures forall k :: k in ReturnedByKey(rows) <==> k != "" && exists i :: 0 <= i < |rows| && RowKey(rows[i]) == k
    ensures forall k :: k in ReturnedByKey(rows) ==> ReturnedByKey(rows)[k] == KeyTotal(rows, k) >= 0.0
  {
    if rows != [] {
      var front := rows[..|rows| - 1];
      ReturnedByKeyFacts(front);
      forall k | k in ReturnedByKey(rows)
        ensures exists i :: 0 <= i < |rows| && RowKey(rows[i]) == k
      {
        if k in ReturnedByKey(front) {
          var i :| 0 <= i < |front| && RowKey(front[i]) == k;
          assert rows[i] == front[i];
        }
      }
      forall k | k != "" && exists i :: 0 <= i < |rows| && RowKey(rows[i]) == k
        ensures k in ReturnedByKey(rows)
      {
        var i :| 0 <= i < |rows| && RowKey(rows[i]) == k;
        if i < |front| {
          assert RowKey(front[i]) == k;
        }
      }
      forall k | k in ReturnedByKey(rows)
        ensures ReturnedByKey(rows)[k] == KeyTotal(rows, k) >= 0.0
      {
        if k !in ReturnedByKey(front) {
          KeyTotalAbsent(front, k);
        }
      }
    }
  }

  /** A key no row carries totals 0. */
  lemma {:induction false} KeyTotalAbsent(rows: seq<ReturnRow>, key: string)
    requires forall i :: 0 <= i < |rows| ==> RowKey(rows[i]) != key
    ensures KeyTotal(rows, key) == 0.0
  {
    if rows != [] {
      KeyTotalAbsent(rows[..|rows| - 1], key);
    }
  }

  /** A row of the original invoice, by row name. */
  datatype InvoiceRow = InvoiceRow(name: string, itemCode: string, qty: real)

  /** A row still open to return. */
  datatype ReturnableRow = ReturnableRow(name: string, itemCode: string, qty: real, originalQty: real, alreadyReturned: real)

  function AlreadyReturned(returned: map<string, real>, row: InvoiceRow): real
  {
    if row.name in returned then returned[row.name] else 0.0
  }

  function Reopened(returned: map<string, real>, row: InvoiceRow): ReturnableRow
  {
    var already := AlreadyReturned(returned, row);
    ReturnableRow(row.name, row.itemCode, row.qty - already, row.qty, already)
  }

  /** The rows `get_invoice_for_return` keeps. */
  function Returnable(rows: seq<InvoiceRow>, returned: map<string, real>): (out: seq<ReturnableRow>)
    ensures |out| <= |rows|
  {
    if rows == [] then []
    else
      var row := rows[|rows| - 1];
      Returnable(rows[..|rows| - 1], returned) +
        (if row.qty - AlreadyReturned(returned, row) > 0.0 then [Reopened(returned, row)] else [])
  }

  /** Exactly the rows with something left to return are kept, each with
      its remaining quantity, its original quantity and what was already
      returned. */
  lemma {:induction false} ReturnableFacts(rows: seq<InvoiceRow>, returned: map<string, real>)
    ensures forall y :: y in Returnable(rows, returned) ==>
      y.qty > 0.0 && y.qty + y.alreadyReturned == y.originalQty &&
      exists i :: 0 <= i < |rows| && y == Reopened(returned, rows[i])
    ensures forall i :: 0 <= i < |rows| && rows[i].qty - AlreadyReturned(returned, rows[i]) > 0.0 ==>
      Reopened(returned, rows[i]) in Returnable(rows, returned)
  {
    if rows != [] {
      var front := rows[..|rows| - 1];
      ReturnableFacts(front, returned);
      forall y | y in Returnable(rows, returned)
        ensures exists i :: 0 <= i < |rows| && y == Reopened(returned, rows[i])
      {
        if y in Returnable(front, returned) {
          var i :| 0 <= i < |front| && y == Reopened(returned, front[i]);
          assert rows[i] == front[i];
        } else {
          assert y == Reopened(returned, rows[|rows| - 1]);
        }
      }
      forall i | 0 <= i < |rows| && rows[i].qty - AlreadyReturned(returned, rows[i]) > 0.0
        ensures Reopened(returned, rows[i]) in Returnable(rows, returned)
      {
        if i < |front| {
          assert rows[i] == front[i];
        }
      }
    }
  }

  /** `get_invoice_for_return`: `invoices` maps names to their rows and
      `returnRows` gives the rows of an invoice's submitted returns. */
  function InvoiceForReturn(invoices: map<string, seq<InvoiceRow>>, returnRows: string -> seq<ReturnRow>, name: string)
    : Result<seq<ReturnableRow>>
  {
    if name !in invoices then Err("Invoice " + name + " does not exist")
    else Ok(Returnable(invoices[name], ReturnedByKey(returnRows(name))))
  }

  /** An unknown invoice is refused; otherwise every row offered for return
      is a row of the invoice with a positive remaining quantity, what was
      already returned against its row name by the submitted returns, and
      its original quantity; and every row with something left is
      offered. */
  lemma InvoiceForReturnFacts(invoices: map<string, seq<InvoiceRow>>, returnRows: string -> seq<ReturnRow>, name: string)
    ensures name !in invoices <==> InvoiceForReturn(invoices, returnRows, name) == Err("Invoice " + name + " does not exist")
    ensures name in invoices ==>
      var r := InvoiceForReturn(invoices, returnRows, name);
      var rows := invoices[name];
      var back := returnRows(name);
      r.Ok? &&
      (forall y :: y in r.value ==>
        y.qty > 0.0 && y.qty + y.alreadyReturned == y.originalQty &&
        y.alreadyReturned == (if y.name != "" then KeyTotal(back, y.name) else 0.0) &&
        exists i :: 0 <= i < |rows| && y.name == rows[i].name && y.originalQty == rows[i].qty) &&
      (forall i :: 0 <= i < |rows| && rows[i].qty - AlreadyReturned(ReturnedByKey(back), rows[i]) > 0.0 ==>
        Reopened(ReturnedByKey(back), rows[i]) in r.value)
  {
    if name in invoices {
      var rows := invoices[name];
      var back := returnRows(name);
      var m := ReturnedByKey(back);
      ReturnableFacts(rows, m);
      ReturnedByKeyFacts(back);
      forall y | y in Returnable(rows, m)
        ensures y.alreadyReturned == (if y.name != "" then KeyTotal(back, y.name) else 0.0)
      {
        var i :| 0 <= i < |rows| && y == Reopened(m, rows[i]);
        if y.name != "" && y.name !in m {
          KeyTotalAbsent(back, y.name);
        }
      }
    }
  }

  // ----- search_invoices_for_return paging -----

  /** The `page` argument: text, a number, or absent. */
  datatype PageArg = PageText(text: string) | PageNumber(n: int) | PageAbsent

  predicate IsDigit(c: char)
  {
    '0' <= c <= '9'
  }

  function DigitsValue(s: string): (n: nat)
    requires forall i :: 0 <= i < |s| ==> IsDigit(s[i])
  {
    if s == [] then 0
    else
      var last := s[|s| - 1];
      assert IsDigit(last);
      10 * DigitsValue(s[..|s| - 1]) + ((last as int) - ('0' as int))
  }

  /** `int(s)` on an optionally signed run of decimal digits. */
  function ParseInt(s: string): Option<int>
  {
    var signed := s != [] && (s[0] == '-' || s[0] == '+');
    var body := if signed then s[1..] else s;
    if body == [] || exists i :: 0 <= i < |body| && !IsDigit(body[i]) then None
    else
      var value: int := DigitsValue(body);
      if signed && s[0] == '-' then Some(-value) else Some(value)
  }

  /** The page as written: only text is read; any other value is page 1. */
  function PageAsWritten(p: PageArg): Result<int>
  {
    match p
    case PageText(s) =>
      if s == "" then Ok(1)
      else
        var n := ParseInt(s);
        if n.Some? then Ok(n.value) else Err("invalid literal for int(): " + s)
    case _ => Ok(1)
  }

  /** The page as intended: a number is used as given (0 means page 1). */
  function Page(p: PageArg): Result<int>
  {
    match p
    case PageNumber(n) => Ok(if n != 0 then n else 1)
    case _ => PageAsWritten(p)
  }

  const PageLength := 100

  /** The rows of page `page` start at `start`; `hasMore` says whether
      rows remain after it. */
  datatype Window = Window(start: int, hasMore: bool)

  function WindowOf(page: int, total: int): Window
  {
    var start := (page - 1) * PageLength;
    Window(start, start + PageLength < total)
  }

  /** Pages are consecutive 100-row windows, and `has_more` holds exactly
      when the next page starts before the end. */
  lemma WindowFacts(page: int, total: int)
    ensures WindowOf(page + 1, total).start == WindowOf(page, total).start + PageLength
    ensures WindowOf(page, total).hasMore <==> WindowOf(page + 1, total).start < total
    ensures page >= 1 ==> WindowOf(page, total).start >= 0
  {
  }

  /** As written a numeric page is ignored: page 2 repeats page 1. */
  lemma PageAsWrittenIgnoresNumbers(n: int, total: int)
    ensures PageAsWritten(PageNumber(n)) == Ok(1)
    ensures WindowOf(PageAsWritten(PageNumber(n)).value, total).start == 0
  {
  }

  /** As intended a numeric page selects its own window, and text pages
      are read as before. */
  lemma PageFacts(p: PageArg, total: int)
    ensures p.PageNumber? && p.n >= 1 ==> Page(p) == Ok(p.n) && WindowOf(Page(p).value, total).start == (p.n - 1) * PageLength
    ensures !p.PageNumber? ==> Page(p) == PageAsWritten(p)
    ensures p.PageText? && p.text != [] && (forall i :: 0 <= i < |p.text| ==> IsDigit(p.text[i])) ==>
      Page(p) == Ok(DigitsValue(p.text))
  {
  }

  // ----- delete_invoice -----

  /** `delete_invoice`: `invoices` maps names to their docstatus. */
  function DeleteInvoice(invoices: map<string, int>, name: string): Result<(map<string, int>, string)>
  {
    if name !in invoices then Err("Invoice " + name + " does not exist")
    else if invoices[name] != 0 then Err("Cannot delete submitted invoice " + name)
    else Ok((invoices - {name}, "Invoice " + name + " Deleted"))
  }

  lemma DeleteInvoiceFacts(invoices: map<string, int>, name: string)
    ensures DeleteInvoice(invoices, name).Ok? <==> name in invoices && invoices[name] == 0
    ensures DeleteInvoice(invoices, name).Ok? ==>
      var rest := DeleteInvoice(invoices, name).value.0;
      name !in rest &&
      forall other :: other != name ==>
        (other in rest <==> other in invoices) && (other in rest ==> rest[other] == invoices[other])
  {
  }

  // ----- return payments -----

  datatype Payment = Payment(amount: real, baseAmount: real)

  /** A return's payment: both amounts made negative (an unset base
      amount stays unset). */
  function Negated(p: Payment): (q: Payment)
    ensures q.amount == -AbsReal(p.amount) && q.baseAmount == -AbsReal(p.baseAmount)
  {
    Payment(-AbsReal(p.amount), if p.baseAmount != 0.0 then -AbsReal(p.baseAmount) else p.baseAmount)
  }

  function Amounts(ps: seq<Payment>): (r: seq<real>)
    ensures |r| == |ps| && forall i :: 0 <= i < |ps| ==> r[i] == ps[i].amount
  {
    seq(|ps|, i requires 0 <= i < |ps| => ps[i].amount)
  }

  function BaseAmounts(ps: seq<Payment>): (r: seq<real>)
    ensures |r| == |ps| && forall i :: 0 <= i < |ps| ==> r[i] == ps[i].baseAmount
  {
    seq(|ps|, i requires 0 <= i < |ps| => ps[i].baseAmount)
  }

  /** Negating is idempotent, and a return's paid amount is never
      positive. */
  lemma NegatedFacts(p: Payment)
    ensures Negated(Negated(p)) == Negated(p)
    ensures Negated(p).amount <= 0.0 && Negated(p).baseAmount <= 0.0
  {
  }

  lemma {:induction false} SumNonPositive(s: seq<real>)
    requires forall i :: 0 <= i < |s| ==> s[i] <= 0.0
    ensures SumReals(s) <= 0.0
  {
    if s != [] {
      SumNonPositive(s[1..]);
    }
  }
}

module InvoicesApi {
  import opened Common
  import opened InvoicesApiModel

  /** `_collect_stock_errors`, appending in a loop. */
  method CollectStockErrors(items: seq<StockRow>, src: StockSource) returns (errors: seq<StockError>)
    ensures errors == StockErrors(items, src)
  {
    errors := [];
    var i := 0;
    while i < |items|
      invariant 0 <= i <= |items|
      invariant errors == StockErrors(items[..i], src)
    {
      var d := items[i];
      assert items[..i + 1][..i] == items[..i];
      if Flt(d.qty) >= 0.0 {
        var available := AvailableStock(d, src);
        var requested := Requested(d);
        if requested > available {
          errors := errors + [StockError(d.itemCode, d.warehouse, requested, available)];
        }
      }
      i := i + 1;
    }
    assert items[..|items|] == items;
  }

  /** The per-code tally of `validate_return_items`'s first loop. */
  method TallySold(rows: seq<QtyRow>) returns (m: map<string, real>)
    ensures m == Sold(rows)
  {
    m := map[];
    var i := 0;
    while i < |rows|
      invariant 0 <= i <= |rows|
      invariant m == Sold(rows[..i])
    {
      assert rows[..i + 1][..i] == rows[..i];
      var d := rows[i];
      m := m[d.itemCode := (if d.itemCode in m then m[d.itemCode] else 0.0) + d.qty];
      i := i + 1;
    }
    assert rows[..|rows|] == rows;
  }

  /** `validate_return_items`. */
  method ValidateReturns(original: seq<QtyRow>, returned: seq<QtyRow>, requests: seq<QtyRow>) returns (r: ReturnValidity)
    ensures r == ValidateReturnItems(original, returned, requests)
  {
    var m := TallySold(original);
    var j := 0;
    while j < |returned|
      invariant 0 <= j <= |returned|
      invariant m == Deduct(Sold(original), returned[..j])
    {
      assert returned[..j + 1][..j] == returned[..j];
      var d := returned[j];
      if d.itemCode in m {
        m := m[d.itemCode := m[d.itemCode] - AbsReal(d.qty)];
      }
      j := j + 1;
    }
    assert returned[..|returned|] == returned;
    var k := 0;
    while k < |requests|
      invariant 0 <= k <= |requests|
      invariant FirstOverReturn(m, requests) == FirstOverReturn(m, requests[k..])
    {
      var d := requests[k];
      if d.itemCode in m && AbsReal(d.qty) > m[d.itemCode] {
        return ReturnInvalid(OverReturnMessage(d.itemCode));
      }
      assert requests[k..][1..] == requests[k + 1..];
      k := k + 1;
    }
    r := ReturnValid;
  }

  /** `get_invoice_for_return`'s last loop. */
  method ReturnableRows(rows: seq<InvoiceRow>, returned: map<string, real>) returns (out: seq<ReturnableRow>)
    ensures out == Returnable(rows, returned)
  {
    out := [];
    var i := 0;
    while i < |rows|
      invariant 0 <= i <= |rows|
      invariant out == Returnable(rows[..i], returned)
    {
      assert rows[..i + 1][..i] == rows[..i];
      var row := rows[i];
      var already := if row.name in returned then returned[row.name] else 0.0;
      var remaining := row.qty - already;
      if remaining > 0.0 {
        out := out + [ReturnableRow(row.name, row.itemCode, remaining, row.qty, already)];
      }
      i := i + 1;
    }
    assert rows[..|rows|] == rows;
  }

  /** The return branch of `update_invoice`: every payment is made
      negative in place, and the paid amounts are their sums. */
  method NegateReturnPayments(payments: array<Payment>) returns (paid: real, basePaid: real)
    modifies payments
    ensures forall i :: 0 <= i < payments.Length ==> payments[i] == Negated(old(payments[i]))
    ensures paid == SumReals(Amounts(payments[..])) && basePaid == SumReals(BaseAmounts(payments[..]))
    ensures paid <= 0.0 && basePaid <= 0.0
  {
    var i := 0;
    while i < payments.Length
      invariant 0 <= i <= payments.Length
      invariant forall j :: 0 <= j < i ==> payments[j] == Negated(old(payments[j]))
      invariant forall j :: i <= j < payments.Length ==> payments[j] == old(payments[j])
    {
      payments[i] := Negated(payments[i]);
      i := i + 1;
    }
    paid := SumReals(Amounts(payments[..]));
    basePaid := SumReals(BaseAmounts(payments[..]));
    SumNonPositive(Amounts(payments[..]));
    SumNonPositive(BaseAmounts(payments[..]));
  }
}
