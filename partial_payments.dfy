// Paying off a partly paid POS invoice (pos_next/api/partial_payments.py,
// add_payment_to_partial_invoice).

module PartialPaymentsModel {
  import opened Common

  /** A payment entry as the client sends it; `amount` and `kind` are
      `None` when the key is missing. */
  datatype PaymentEntry = PaymentEntry(modeOfPayment: string, amount: Option<real>, kind: Option<string>)

  /** A row of the invoice's payments table. */
  datatype PaymentRow = PaymentRow(modeOfPayment: string, amount: Option<real>, kind: string)

  /** The fields of a Sales Invoice the payment reads and writes. */
  datatype InvoiceState = InvoiceState(
    docstatus: int, grandTotal: real, paidAmount: real, outstandingAmount: real,
    status: string, payments: seq<PaymentRow>)

  /** `float(p.get("amount", 0))`. */
  function AmountOf(e: PaymentEntry): real
  {
    if e.amount.Some? then e.amount.value else 0.0
  }

  /** The sum of the entries' amounts. */
  function Total(entries: seq<PaymentEntry>): real
  {
    if entries == [] then 0.0 else Total(entries[..|entries| - 1]) + AmountOf(entries[|entries| - 1])
  }

  /** The row appended for an entry; the type defaults to "Cash". */
  function RowOf(e: PaymentEntry): PaymentRow
  {
    PaymentRow(e.modeOfPayment, e.amount, if e.kind.Some? then e.kind.value else "Cash")
  }

  function Rows(entries: seq<PaymentEntry>): (rows: seq<PaymentRow>)
    ensures |rows| == |entries| && forall i :: 0 <= i < |entries| ==> rows[i] == RowOf(entries[i])
  {
    seq(|entries|, i requires 0 <= i < |entries| => RowOf(entries[i]))
  }

  /** Below one cent outstanding counts as paid. */
  const Tolerance := 0.01

  /** The first failed check of `add_payment_to_partial_invoice`, if any;
      `canWrite` is the user's write permission on the invoice. */
  function PaymentError(name: string, entries: seq<PaymentEntry>, canWrite: bool, inv: InvoiceState): Option<string>
  {
    if name == "" then Some("Invoice name is required")
    else if entries == [] then Some("Payment entries are required")
    else if !canWrite then Some("You don't have permission to modify this invoice")
    else if inv.outstandingAmount <= 0.0 then Some("Invoice is already fully paid")
    else if inv.docstatus != 1 then Some("Invoice must be submitted to add payments")
    else if Total(entries) <= 0.0 then Some("Payment amount must be greater than zero")
    else if Total(entries) > inv.outstandingAmount then Some("Payment amount cannot exceed outstanding amount")
    else None
  }

  /** The invoice after the payment rows are appended and the amounts
      recomputed. */
  function Settled(inv: InvoiceState, entries: seq<PaymentEntry>): InvoiceState
  {
    var paid := inv.paidAmount + Total(entries);
    var outstanding := inv.grandTotal - paid;
    var s := inv.(payments := inv.payments + Rows(entries), paidAmount := paid, outstandingAmount := outstanding);
    if outstanding <= Tolerance then s.(outstandingAmount := 0.0, status := "Paid") else s
  }

  /** `add_payment_to_partial_invoice`. */
  function AddPayment(name: string, entries: seq<PaymentEntry>, canWrite: bool, inv: InvoiceState): Result<InvoiceState>
  {
    var e := PaymentError(name, entries, canWrite, inv);
    if e.Some? then Err(e.value) else Ok(Settled(inv, entries))
  }

  /** A payment is refused exactly for a missing name, no entries, no
      permission, nothing outstanding, an unsubmitted invoice, a total
      that is not positive or one above the outstanding amount. */
  lemma AddPaymentRefusals(name: string, entries: seq<PaymentEntry>, canWrite: bool, inv: InvoiceState)
    ensures AddPayment(name, entries, canWrite, inv).Ok? <==>
      name != "" && entries != [] && canWrite && inv.outstandingAmount > 0.0 && inv.docstatus == 1 &&
      0.0 < Total(entries) <= inv.outstandingAmount
  {
  }

  /** On success the paid amount grows by the total, one row per entry is
      appended in order, and the outstanding amount is what remains of the
      grand total, or 0 with status Paid within a cent. */
  lemma AddPaymentFacts(name: string, entries: seq<PaymentEntry>, canWrite: bool, inv: InvoiceState)
    ensures var r := AddPayment(name, entries, canWrite, inv);
      r.Ok? ==>
        r.value.paidAmount == inv.paidAmount + Total(entries) &&
        r.value.payments[..|inv.payments|] == inv.payments &&
        |r.value.payments| == |inv.payments| + |entries| &&
        (forall i :: 0 <= i < |entries| ==> r.value.payments[|inv.payments| + i] == RowOf(entries[i])) &&
        (inv.grandTotal - r.value.paidAmount <= Tolerance ==> r.value.outstandingAmount == 0.0 && r.value.status == "Paid") &&
        (inv.grandTotal - r.value.paidAmount > Tolerance ==>
          r.value.outstandingAmount == inv.grandTotal - r.value.paidAmount && r.value.status == inv.status) &&
        r.value.docstatus == inv.docstatus && r.value.grandTotal == inv.grandTotal
  {
  }

  /** On an invoice whose amounts add up, a payment strictly lowers the
      outstanding amount, never below 0, and never pays more than the
      grand total. */
  lemma PaymentReducesOutstanding(name: string, entries: seq<PaymentEntry>, canWrite: bool, inv: InvoiceState)
    requires inv.outstandingAmount == inv.grandTotal - inv.paidAmount
    ensures var r := AddPayment(name, entries, canWrite, inv);
      r.Ok? ==>
        0.0 <= r.value.outstandingAmount < inv.outstandingAmount && r.value.paidAmount <= inv.grandTotal
  {
  }
}

module PartialPayments {
  import opened Common
  import opened PartialPaymentsModel

  /** The Sales Invoice document being paid. */
  class SalesInvoice {
    var docstatus: int
    var grandTotal: real
    var paidAmount: real
    var outstandingAmount: real
    var status: string
    var payments: seq<PaymentRow>

    function State(): InvoiceState
      reads this
    {
      InvoiceState(docstatus, grandTotal, paidAmount, outstandingAmount, status, payments)
    }

    constructor(s: InvoiceState)
      ensures State() == s
    {
      docstatus := s.docstatus;
      grandTotal := s.grandTotal;
      paidAmount := s.paidAmount;
      outstandingAmount := s.outstandingAmount;
      status := s.status;
      payments := s.payments;
    }

    /** `add_payment_to_partial_invoice`: the checks, then one appended row
        per entry and the new amounts; a refusal changes nothing. */
    method AddPayment(name: string, entries: seq<PaymentEntry>, canWrite: bool) returns (r: Result<InvoiceState>)
      modifies this
      ensures r == PartialPaymentsModel.AddPayment(name, entries, canWrite, old(State()))
      ensures State() == (if r.Ok? then r.value else old(State()))
    {
      ghost var s0 := State();
      if name == "" {
        return Err("Invoice name is required");
      } else if entries == [] {
        return Err("Payment entries are required");
      } else if !canWrite {
        return Err("You don't have permission to modify this invoice");
      } else if outstandingAmount <= 0.0 {
        return Err("Invoice is already fully paid");
      } else if docstatus != 1 {
        return Err("Invoice must be submitted to add payments");
      }
      var total := 0.0;
      var i := 0;
      while i < |entries|
        invariant 0 <= i <= |entries|
        invariant total == Total(entries[..i])
      {
        assert entries[..i + 1][..i] == entries[..i];
        total := total + AmountOf(entries[i]);
        i := i + 1;
      }
      assert entries[..|entries|] == entries;
      if total <= 0.0 {
        return Err("Payment amount must be greater than zero");
      } else if total > outstandingAmount {
        return Err("Payment amount cannot exceed outstanding amount");
      }
      var rows := payments;
      i := 0;
      while i < |entries|
        invariant 0 <= i <= |entries|
        invariant rows == s0.payments + Rows(entries[..i])
      {
        rows := rows + [RowOf(entries[i])];
        i := i + 1;
        assert Rows(entries[..i]) == Rows(entries[..i - 1]) + [RowOf(entries[i - 1])];
      }
      assert entries[..|entries|] == entries;
      assert PaymentError(name, entries, canWrite, s0) == None;
      payments := rows;
      paidAmount := paidAmount + total;
      outstandingAmount := grandTotal - paidAmount;
      if outstandingAmount <= Tolerance {
        outstandingAmount := 0.0;
        status := "Paid";
      }
      assert State() == Settled(s0, entries);
      r := Ok(State());
    }
  }
}
