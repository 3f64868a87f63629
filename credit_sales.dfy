// Credit sales (pos_next/api/credit_sales.py): a customer's balance, the
// credit sources a POS sale may draw on, redeeming that credit through
// journal entries and advance allocations, and cancelling those journal
// entries again.

module CreditSalesModel {
  import opened Common

  // ---------------------------------------------------------------------
  // Customer balance

  /** A General Ledger row, as far as the balance query reads it. */
  datatype GlEntry = GlEntry(partyType: string, party: string, docstatus: int, company: string, debit: real, credit: real)

  /** The balance query's filter; an empty company does not filter. */
  predicate Counts(e: GlEntry, customer: string, company: string)
  {
    e.partyType == "Customer" && e.party == customer && e.docstatus == 1 && (company != "" ==> e.company == company)
  }

  /** `SUM(debit - credit)` over the rows that pass the filter (0 for none). */
  function Balance(gl: seq<GlEntry>, customer: string, company: string): real
  {
    if gl == [] then 0.0
    else
      var e := gl[|gl| - 1];
      Balance(gl[..|gl| - 1], customer, company) + (if Counts(e, customer, company) then e.debit - e.credit else 0.0)
  }

  /** `get_customer_balance`. */
  function CustomerBalance(customer: string, company: string, gl: seq<GlEntry>): Result<real>
  {
    if customer == "" then Err("Customer is required") else Ok(Balance(gl, customer, company))
  }

  /** The balance of two ledgers together is the sum of their balances. */
  lemma {:induction false} BalanceConcat(a: seq<GlEntry>, b: seq<GlEntry>, customer: string, company: string)
    ensures Balance(a + b, customer, company) == Balance(a, customer, company) + Balance(b, customer, company)
  {
    if b != [] {
      assert (a + b)[..|a + b| - 1] == a + b[..|b| - 1];
      BalanceConcat(a, b[..|b| - 1], customer, company);
    } else {
      assert a + b == a;
    }
  }

  /** Rows of other parties, drafts and (when a company is given) other
      companies leave the balance alone. */
  lemma {:induction false} BalanceIgnores(gl: seq<GlEntry>, customer: string, company: string)
    requires forall i :: 0 <= i < |gl| ==> !Counts(gl[i], customer, company)
    ensures Balance(gl, customer, company) == 0.0
  {
    if gl != [] {
      BalanceIgnores(gl[..|gl| - 1], customer, company);
    }
  }

  /** The balance is refused only for a missing customer. */
  lemma CustomerBalanceRefusals(customer: string, company: string, gl: seq<GlEntry>)
    ensures CustomerBalance(customer, company, gl).Err? <==> customer == ""
    ensures CustomerBalance(customer, company, gl) == Ok(0.0) <== customer != "" && gl == []
  {
  }

  // ---------------------------------------------------------------------
  // Available credit

  /** `check_credit_sale_enabled`: `settings` maps a POS profile to its POS
      Settings' `allow_credit_sale`; no profile, no settings or 0 is off. */
  predicate CreditSaleEnabled(profile: string, settings: map<string, int>)
  {
    profile != "" && profile in settings && settings[profile] != 0
  }

  /** A Sales Invoice as the credit query reads it. */
  datatype InvoiceRow = InvoiceRow(
    name: string, customer: string, company: string, docstatus: int,
    outstanding: real, isReturn: bool, postingDate: string, grandTotal: real)

  /** A Payment Entry as the advance query reads it. */
  datatype PaymentRow = PaymentRow(
    name: string, party: string, company: string, docstatus: int, paymentType: string,
    unallocated: real, postingDate: string, paidAmount: real, modeOfPayment: string)

  /** One credit source offered to the cashier. */
  datatype CreditSource = CreditSource(
    kind: string, origin: string, totalCredit: real, availableCredit: real, sourceType: string,
    postingDate: string, referenceAmount: real, modeOfPayment: Option<string>, creditToRedeem: real)

  /** The invoice query: submitted invoices of the customer and company
      with a negative outstanding amount. */
  predicate InvoiceQualifies(row: InvoiceRow, customer: string, company: string)
  {
    row.outstanding < 0.0 && row.docstatus == 1 && row.customer == customer && row.company == company
  }

  /** The advance query: submitted receipts of the customer and company
      with something left unallocated. */
  predicate AdvanceQualifies(row: PaymentRow, customer: string, company: string)
  {
    row.unallocated > 0.0 && row.party == customer && row.company == company &&
    row.docstatus == 1 && row.paymentType == "Receive"
  }

  function InvoiceQuery(invoices: seq<InvoiceRow>, customer: string, company: string): seq<InvoiceRow>
  {
    Filter(invoices, row => InvoiceQualifies(row, customer, company))
  }

  function AdvanceQuery(payments: seq<PaymentRow>, customer: string, company: string): seq<PaymentRow>
  {
    Filter(payments, row => AdvanceQualifies(row, customer, company))
  }

  function InvoiceCredit(row: InvoiceRow): CreditSource
  {
    CreditSource("Invoice", row.name, -row.outstanding, -row.outstanding,
      if row.isReturn then "Sales Return" else "Sales Invoice", row.postingDate, row.grandTotal, None, 0.0)
  }

  function AdvanceCredit(row: PaymentRow): CreditSource
  {
    CreditSource("Advance", row.name, row.unallocated, row.unallocated, "Payment Entry",
      row.postingDate, row.paidAmount, Some(row.modeOfPayment), 0.0)
  }

  /** The first loop: one source per queried invoice with positive credit. */
  function InvoiceSources(rows: seq<InvoiceRow>): seq<CreditSource>
  {
    if rows == [] then []
    else
      var row := rows[|rows| - 1];
      InvoiceSources(rows[..|rows| - 1]) + (if -row.outstanding > 0.0 then [InvoiceCredit(row)] else [])
  }

  /** The second loop: one source per queried advance. */
  function AdvanceSources(rows: seq<PaymentRow>): seq<CreditSource>
  {
    if rows == [] then [] else AdvanceSources(rows[..|rows| - 1]) + [AdvanceCredit(rows[|rows| - 1])]
  }

  /** `get_available_credit`; `invoices` and `payments` are the Sales
      Invoice and Payment Entry tables. */
  function AvailableCredit(
    customer: string, company: string, profile: string, settings: map<string, int>,
    invoices: seq<InvoiceRow>, payments: seq<PaymentRow>): Result<seq<CreditSource>>
  {
    if customer == "" then Err("Customer is required")
    else if company == "" then Err("Company is required")
    else if profile != "" && !CreditSaleEnabled(profile, settings) then Err("Credit sale is not enabled for this POS Profile")
    else Ok(InvoiceSources(InvoiceQuery(invoices, customer, company)) + AdvanceSources(AdvanceQuery(payments, customer, company)))
  }

  /** The invoice sources are exactly the credits of the rows with a
      negative outstanding amount. */
  lemma {:induction false} InvoiceSourcesFacts(rows: seq<InvoiceRow>)
    ensures forall s :: s in InvoiceSources(rows) <==> exists row :: row in rows && row.outstanding < 0.0 && s == InvoiceCredit(row)
  {
    if rows != [] {
      InvoiceSourcesFacts(rows[..|rows| - 1]);
      assert rows == rows[..|rows| - 1] + [rows[|rows| - 1]];
    }
  }

  /** The advance sources are exactly the credits of the rows. */
  lemma {:induction false} AdvanceSourcesFacts(rows: seq<PaymentRow>)
    ensures forall s :: s in AdvanceSources(rows) <==> exists row :: row in rows && s == AdvanceCredit(row)
  {
    if rows != [] {
      AdvanceSourcesFacts(rows[..|rows| - 1]);
      assert rows == rows[..|rows| - 1] + [rows[|rows| - 1]];
    }
  }

  /** Credit is refused exactly for a missing customer or company, or a
      given POS profile whose settings do not allow credit sales. */
  lemma AvailableCreditRefusals(
    customer: string, company: string, profile: string, settings: map<string, int>,
    invoices: seq<InvoiceRow>, payments: seq<PaymentRow>)
    ensures AvailableCredit(customer, company, profile, settings, invoices, payments).Ok? <==>
      customer != "" && company != "" && (profile != "" ==> profile in settings && settings[profile] != 0)
  {
  }

  /** The sources offered are exactly one Invoice source per submitted
      invoice of the customer and company with negative outstanding, its
      credit being the outstanding amount negated, and one Advance source
      per submitted receipt with an unallocated amount; every source has
      positive credit and nothing set to redeem yet. */
  lemma AvailableCreditFacts(
    customer: string, company: string, profile: string, settings: map<string, int>,
    invoices: seq<InvoiceRow>, payments: seq<PaymentRow>)
    ensures var r := AvailableCredit(customer, company, profile, settings, invoices, payments);
      r.Ok? ==>
        (forall s :: s in r.value <==>
          (exists row :: row in invoices && InvoiceQualifies(row, customer, company) && s == InvoiceCredit(row)) ||
          (exists row :: row in payments && AdvanceQualifies(row, customer, company) && s == AdvanceCredit(row))) &&
        (forall s :: s in r.value ==>
          s.availableCredit > 0.0 && s.totalCredit == s.availableCredit && s.creditToRedeem == 0.0 &&
          (s.kind == "Invoice" || s.kind == "Advance"))
  {
    var qi := InvoiceQuery(invoices, customer, company);
    var qa := AdvanceQuery(payments, customer, company);
    FilterMembers(invoices, row => InvoiceQualifies(row, customer, company));
    FilterMembers(payments, row => AdvanceQualifies(row, customer, company));
    InvoiceSourcesFacts(qi);
    AdvanceSourcesFacts(qa);
  }

  // ---------------------------------------------------------------------
  // Redeeming credit

  /** A Sales Invoice document as redemption reads it (`costCenter` is ""
      when unset). */
  datatype InvoiceDoc = InvoiceDoc(
    name: string, docstatus: int, company: string, customer: string, debitTo: string,
    costCenter: string, grandTotal: real, outstanding: real)

  /** One row of a Journal Entry's accounts table. */
  datatype JournalAccount = JournalAccount(
    account: string, partyType: string, party: string, referenceType: string, referenceName: string,
    debit: real, credit: real, costCenter: string)

  datatype JournalEntry = JournalEntry(
    voucherType: string, postingDate: string, company: string, remark: string,
    accounts: seq<JournalAccount>, docstatus: int)

  /** A row of a Payment Entry's references table. */
  datatype PaymentReference = PaymentReference(
    referenceDoctype: string, referenceName: string, totalAmount: real, outstandingAmount: real, allocatedAmount: real)

  /** An advance Payment Entry as allocation reads and writes it. */
  datatype AdvanceEntry = AdvanceEntry(unallocated: real, references: seq<PaymentReference>)

  /** The documents redemption creates or changes: the Journal Entries, in
      creation order, and the Payment Entries by name. */
  datatype Books = Books(journals: seq<JournalEntry>, advances: map<string, AdvanceEntry>)

  /** A row of `customer_credit_dict`; missing keys are `None`. */
  datatype CreditRow = CreditRow(creditToRedeem: Option<real>, kind: Option<string>, origin: Option<string>)

  /** The name returned for a processed row: the Journal Entry at that
      position of `journals`, or the allocated Payment Entry. */
  datatype Created = JournalCreated(index: nat) | PaymentAllocated(name: string)

  /** What redemption reads besides the books: the Sales Invoices by name,
      today's date and the company's default cost center. */
  datatype Env = Env(invoices: map<string, InvoiceDoc>, today: string, companyCostCenter: string)

  /** `get_credit_redeem_remark`. */
  function Remark(invoiceName: string): string
  {
    "POS Next credit redemption for invoice " + invoiceName
  }

  function RedeemAmount(row: CreditRow): real
  {
    Coalesce(row.creditToRedeem, 0.0)
  }

  /** A row the loop acts on: something to redeem and a known type. */
  predicate Processed(row: CreditRow)
  {
    RedeemAmount(row) > 0.0 && (row.kind == Some("Invoice") || row.kind == Some("Advance"))
  }

  /** `_create_credit_allocation_journal_entry`: the entry moving `amount`
      from the original invoice to the new one, submitted. */
  function AllocationJournal(inv: InvoiceDoc, original: InvoiceDoc, amount: real, env: Env): JournalEntry
  {
    var cc := if inv.costCenter != "" then inv.costCenter else env.companyCostCenter;
    JournalEntry("Journal Entry", env.today, inv.company, Remark(inv.name),
      [JournalAccount(original.debitTo, "Customer", inv.customer, "Sales Invoice", original.name, amount, 0.0, cc),
       JournalAccount(inv.debitTo, "Customer", inv.customer, "Sales Invoice", inv.name, 0.0, amount, cc)],
      1)
  }

  function Debits(accounts: seq<JournalAccount>): seq<real>
  {
    seq(|accounts|, i requires 0 <= i < |accounts| => accounts[i].debit)
  }

  function Credits(accounts: seq<JournalAccount>): seq<real>
  {
    seq(|accounts|, i requires 0 <= i < |accounts| => accounts[i].credit)
  }

  /** `_create_payment_entry_from_advance`, after its check: a reference
      to the invoice allocating `amount`, which leaves the advance. */
  function Allocated(pe: AdvanceEntry, inv: InvoiceDoc, amount: real): AdvanceEntry
  {
    AdvanceEntry(pe.unallocated - amount,
      pe.references + [PaymentReference("Sales Invoice", inv.name, inv.grandTotal, inv.outstanding, amount)])
  }

  /** The loop body for one row of `customer_credit_dict`. */
  function Step(b: Books, inv: InvoiceDoc, row: CreditRow, env: Env): Result<(Books, Option<Created>)>
  {
    var amount := RedeemAmount(row);
    if amount <= 0.0 then Ok((b, None))
    else if row.kind == Some("Invoice") then
      if row.origin.None? || row.origin.value !in env.invoices then Err("Sales Invoice not found")
      else
        var je := AllocationJournal(inv, env.invoices[row.origin.value], amount, env);
        Ok((b.(journals := b.journals + [je]), Some(JournalCreated(|b.journals|))))
    else if row.kind == Some("Advance") then
      if row.origin.None? || row.origin.value !in b.advances then Err("Payment Entry not found")
      else if b.advances[row.origin.value].unallocated < amount then
        Err("Payment Entry " + row.origin.value + " has insufficient unallocated amount")
      else
        var pe := Allocated(b.advances[row.origin.value], inv, amount);
        Ok((b.(advances := b.advances[row.origin.value := pe]), Some(PaymentAllocated(row.origin.value))))
    else Ok((b, None))
  }

  /** The loop over the rows; the first error ends it. */
  function RedeemRows(b: Books, inv: InvoiceDoc, rows: seq<CreditRow>, env: Env): Result<(Books, seq<Created>)>
  {
    if rows == [] then Ok((b, []))
    else
      match RedeemRows(b, inv, rows[..|rows| - 1], env)
      case Err(m) => Err(m)
      case Ok(done) =>
        match Step(done.0, inv, rows[|rows| - 1], env)
        case Err(m) => Err(m)
        case Ok(next) => Ok((next.0, done.1 + (if next.1.Some? then [next.1.value] else [])))
  }

  /** `redeem_customer_credit`. */
  function Redeem(b: Books, invoiceName: string, rows: seq<CreditRow>, env: Env): Result<(Books, seq<Created>)>
  {
    if invoiceName == "" then Err("Invoice name is required")
    else if rows == [] then Ok((b, []))
    else if invoiceName !in env.invoices then Err("Sales Invoice not found")
    else if env.invoices[invoiceName].docstatus != 1 then Err("Invoice must be submitted to redeem credit")
    else RedeemRows(b, env.invoices[invoiceName], rows, env)
  }

  /** The allocation entry has exactly two rows, is balanced at `amount`,
      debits the original invoice's receivable and credits the new
      invoice's, both for the new invoice's customer, and carries the
      redemption remark. */
  lemma AllocationJournalFacts(inv: InvoiceDoc, original: InvoiceDoc, amount: real, env: Env)
    ensures var je := AllocationJournal(inv, original, amount, env);
      |je.accounts| == 2 &&
      SumReals(Debits(je.accounts)) == amount == SumReals(Credits(je.accounts)) &&
      je.accounts[0].referenceName == original.name && je.accounts[0].account == original.debitTo &&
      je.accounts[1].referenceName == inv.name && je.accounts[1].account == inv.debitTo &&
      je.accounts[0].party == je.accounts[1].party == inv.customer &&
      je.remark == Remark(inv.name) && je.docstatus == 1
  {
    var je := AllocationJournal(inv, original, amount, env);
    assert Debits(je.accounts) == [amount, 0.0];
    assert Credits(je.accounts) == [0.0, amount];
    assert [amount, 0.0][1..] == [0.0] && [0.0, amount][1..] == [amount];
    assert [0.0][1..] == [] && [amount][1..] == [];
  }

  /** An advance cannot give more than it has left unallocated. */
  lemma AdvanceShortRefused(b: Books, inv: InvoiceDoc, row: CreditRow, env: Env)
    requires row.kind == Some("Advance") && row.origin.Some? && row.origin.value in b.advances
    requires RedeemAmount(row) > 0.0
    ensures Step(b, inv, row, env).Err? <==> b.advances[row.origin.value].unallocated < RedeemAmount(row)
  {
  }

  /** Without a name redemption fails; an empty list redeems nothing and
      changes nothing; otherwise the invoice must exist and be submitted. */
  lemma RedeemRefusals(b: Books, invoiceName: string, rows: seq<CreditRow>, env: Env)
    ensures invoiceName == "" ==> Redeem(b, invoiceName, rows, env).Err?
    ensures invoiceName != "" && rows == [] ==> Redeem(b, invoiceName, rows, env) == Ok((b, []))
    ensures invoiceName != "" && rows != [] && (invoiceName !in env.invoices || env.invoices[invoiceName].docstatus != 1) ==>
      Redeem(b, invoiceName, rows, env).Err?
  {
  }

  /** A journal entry that cancellation for `invoiceName` looks for. */
  predicate CancelTarget(je: JournalEntry, invoiceName: string)
  {
    je.docstatus == 1 && je.remark == Remark(invoiceName) &&
    exists a :: a in je.accounts && a.referenceType == "Sales Invoice" && a.referenceName == invoiceName
  }

  /** One row's effect: a processed row yields one name, a Journal Entry
      for an Invoice row and the Payment Entry for an Advance row; journal
      entries are only appended, each one a cancellation target of the
      invoice. */
  lemma StepFacts(b: Books, inv: InvoiceDoc, row: CreditRow, env: Env)
    ensures var r := Step(b, inv, row, env);
      r.Ok? ==>
        var (b2, o) := r.value;
        (o.Some? <==> Processed(row)) &&
        (o.Some? ==> (o.value.JournalCreated? <==> row.kind == Some("Invoice"))) &&
        (o.Some? && o.value.JournalCreated? ==> o.value.index == |b.journals| && |b2.journals| == |b.journals| + 1) &&
        (o.Some? && o.value.PaymentAllocated? ==> Some(o.value.name) == row.origin) &&
        (o.None? || o.value.PaymentAllocated? ==> b2.journals == b.journals) &&
        |b.journals| <= |b2.journals| && b2.journals[..|b.journals|] == b.journals &&
        (forall j :: |b.journals| <= j < |b2.journals| ==> CancelTarget(b2.journals[j], inv.name))
  {
    var r := Step(b, inv, row, env);
    if r.Ok? && r.value.1.Some? && r.value.1.value.JournalCreated? {
      var je := r.value.0.journals[|b.journals|];
      assert je.accounts[1] in je.accounts;
    }
  }

  /** A successful redemption returns one name per processed row, in
      order: a Journal Entry exactly for the Invoice rows, created in
      that order after the existing ones, and the Payment Entry named by
      each Advance row; the journal entries before it are kept, and every
      new one is a cancellation target of the invoice. */
  lemma {:induction false} RedeemRowsFacts(b: Books, inv: InvoiceDoc, rows: seq<CreditRow>, env: Env)
    ensures var r := RedeemRows(b, inv, rows, env);
      r.Ok? ==>
        var (b2, c) := r.value;
        var ps := Filter(rows, Processed);
        |c| == |ps| &&
        (forall k :: 0 <= k < |c| ==> (c[k].JournalCreated? <==> ps[k].kind == Some("Invoice"))) &&
        (forall k :: 0 <= k < |c| && c[k].PaymentAllocated? ==> Some(c[k].name) == ps[k].origin) &&
        (forall k :: 0 <= k < |c| && c[k].JournalCreated? ==> |b.journals| <= c[k].index < |b2.journals|) &&
        |b.journals| <= |b2.journals| && b2.journals[..|b.journals|] == b.journals &&
        (forall j :: |b.journals| <= j < |b2.journals| ==> CancelTarget(b2.journals[j], inv.name))
  {
    if rows != [] {
      var front := rows[..|rows| - 1];
      RedeemRowsFacts(b, inv, front, env);
      var r0 := RedeemRows(b, inv, front, env);
      if r0.Ok? {
        var (b1, c1) := r0.value;
        StepFacts(b1, inv, rows[|rows| - 1], env);
        var r := RedeemRows(b, inv, rows, env);
        if r.Ok? {
          var (b2, c) := r.value;
          assert b2.journals[..|b1.journals|] == b1.journals;
          assert b2.journals[..|b.journals|] == b1.journals[..|b.journals|];
        }
      }
    }
  }

  /** The first error of the loop is its result, whatever rows follow. */
  lemma {:induction false} RedeemRowsErrPersists(b: Books, inv: InvoiceDoc, rows: seq<CreditRow>, k: nat, env: Env)
    requires k <= |rows| && RedeemRows(b, inv, rows[..k], env).Err?
    ensures RedeemRows(b, inv, rows, env) == RedeemRows(b, inv, rows[..k], env)
  {
    if k < |rows| {
      assert rows[..|rows| - 1][..k] == rows[..k];
      RedeemRowsErrPersists(b, inv, rows[..|rows| - 1], k, env);
    } else {
      assert rows[..k] == rows;
    }
  }

  // ---------------------------------------------------------------------
  // Cancelling the redemption journal entries

  /** Entry `j` is cancelled: it is a target and its cancel does not fail
      (`fails` are the entries whose cancel raises; those are logged). */
  predicate Cancels(journals: seq<JournalEntry>, invoiceName: string, fails: set<nat>, j: nat)
    requires j < |journals|
  {
    CancelTarget(journals[j], invoiceName) && j !in fails
  }

  /** The journal entries after `cancel_credit_journal_entries`. */
  function CancelJournals(journals: seq<JournalEntry>, invoiceName: string, fails: set<nat>): (r: seq<JournalEntry>)
    ensures |r| == |journals|
  {
    seq(|journals|, j requires 0 <= j < |journals| =>
      if Cancels(journals, invoiceName, fails, j) then journals[j].(docstatus := 2) else journals[j])
  }

  /** The count over the first `n` entries. */
  function CancelCount(journals: seq<JournalEntry>, invoiceName: string, fails: set<nat>, n: nat): nat
    requires n <= |journals|
  {
    if n == 0 then 0
    else CancelCount(journals, invoiceName, fails, n - 1) + (if Cancels(journals, invoiceName, fails, n - 1) then 1 else 0)
  }

  /** The number of entries among the first `n` that went from submitted
      to cancelled. */
  function Transitions(before: seq<JournalEntry>, after: seq<JournalEntry>, n: nat): nat
    requires n <= |before| == |after|
  {
    if n == 0 then 0
    else Transitions(before, after, n - 1) + (if before[n - 1].docstatus == 1 && after[n - 1].docstatus == 2 then 1 else 0)
  }

  /** Only submitted entries with the invoice's remark that reference the
      invoice are cancelled (unless their cancel fails); everything else
      is left as it was. */
  lemma CancelJournalsFacts(journals: seq<JournalEntry>, invoiceName: string, fails: set<nat>)
    ensures var r := CancelJournals(journals, invoiceName, fails);
      forall j :: 0 <= j < |journals| ==>
        (r[j] != journals[j] <==> Cancels(journals, invoiceName, fails, j)) &&
        r[j] == journals[j].(docstatus := r[j].docstatus) &&
        (r[j].docstatus == 2 && journals[j].docstatus == 1 <==> CancelTarget(journals[j], invoiceName) && j !in fails)
  {
  }

  /** The returned count is the number of entries the call cancelled. */
  lemma {:induction false} CancelCountFacts(journals: seq<JournalEntry>, invoiceName: string, fails: set<nat>, n: nat)
    requires n <= |journals|
    ensures CancelCount(journals, invoiceName, fails, n) == Transitions(journals, CancelJournals(journals, invoiceName, fails), n)
  {
    if n > 0 {
      CancelCountFacts(journals, invoiceName, fails, n - 1);
    }
  }

  /** Cancelling an invoice's redemption with no failing cancel cancels
      every journal entry redemption created for it. */
  lemma RedeemThenCancel(b: Books, invoiceName: string, rows: seq<CreditRow>, env: Env)
    requires invoiceName in env.invoices ==> env.invoices[invoiceName].name == invoiceName
    ensures var r := Redeem(b, invoiceName, rows, env);
      r.Ok? ==>
        var after := CancelJournals(r.value.0.journals, invoiceName, {});
        forall j :: |b.journals| <= j < |after| ==> after[j].docstatus == 2
  {
    var r := Redeem(b, invoiceName, rows, env);
    if r.Ok? && rows != [] {
      RedeemRowsFacts(b, env.invoices[invoiceName], rows, env);
    }
  }
}

module CreditSales {
  import opened Common
  import opened CreditSalesModel

  /** `get_available_credit`: the checks, then the two appending loops. */
  method GetAvailableCredit(
    customer: string, company: string, profile: string, settings: map<string, int>,
    invoices: seq<InvoiceRow>, payments: seq<PaymentRow>) returns (r: Result<seq<CreditSource>>)
    ensures r == AvailableCredit(customer, company, profile, settings, invoices, payments)
  {
    if customer == "" {
      return Err("Customer is required");
    }
    if company == "" {
      return Err("Company is required");
    }
    if profile != "" && !CreditSaleEnabled(profile, settings) {
      return Err("Credit sale is not enabled for this POS Profile");
    }
    var fromInvoices := InvoiceCreditLoop(InvoiceQuery(invoices, customer, company));
    var fromAdvances := AdvanceCreditLoop(AdvanceQuery(payments, customer, company));
    return Ok(fromInvoices + fromAdvances);
  }

  /** The first loop of `get_available_credit`, over the queried invoices. */
  method InvoiceCreditLoop(outstanding: seq<InvoiceRow>) returns (total: seq<CreditSource>)
    ensures total == InvoiceSources(outstanding)
  {
    total := [];
    var i := 0;
    while i < |outstanding|
      invariant 0 <= i <= |outstanding|
      invariant total == InvoiceSources(outstanding[..i])
    {
      assert outstanding[..i + 1][..i] == outstanding[..i];
      var available := -outstanding[i].outstanding;
      if available > 0.0 {
        total := total + [InvoiceCredit(outstanding[i])];
      }
      i := i + 1;
    }
    assert outstanding[..|outstanding|] == outstanding;
  }

  /** The second loop of `get_available_credit`, over the queried advances. */
  method AdvanceCreditLoop(advances: seq<PaymentRow>) returns (total: seq<CreditSource>)
    ensures total == AdvanceSources(advances)
  {
    total := [];
    var i := 0;
    while i < |advances|
      invariant 0 <= i <= |advances|
      invariant total == AdvanceSources(advances[..i])
    {
      assert advances[..i + 1][..i] == advances[..i];
      total := total + [AdvanceCredit(advances[i])];
      i := i + 1;
    }
    assert advances[..|advances|] == advances;
  }

  /** The Journal Entry and Payment Entry tables redemption writes. */
  class Ledger {
    var journals: seq<JournalEntry>
    var advances: map<string, AdvanceEntry>

    function State(): Books
      reads this
    {
      Books(journals, advances)
    }

    constructor(b: Books)
      ensures State() == b
    {
      journals := b.journals;
      advances := b.advances;
    }

    /** `redeem_customer_credit`: the loop over the rows, creating a
        journal entry or allocating an advance per processed row; an error
        rolls the request back, so the tables are as before. */
    method RedeemCustomerCredit(invoiceName: string, rows: seq<CreditRow>, env: Env) returns (r: Result<seq<Created>>)
      modifies this
      ensures var spec := Redeem(old(State()), invoiceName, rows, env);
        (r.Ok? <==> spec.Ok?) &&
        (r.Ok? ==> r.value == spec.value.1 && State() == spec.value.0) &&
        (r.Err? ==> r.msg == spec.msg && State() == old(State()))
    {
      ghost var s0 := State();
      if invoiceName == "" {
        return Err("Invoice name is required");
      }
      if rows == [] {
        return Ok([]);
      }
      if invoiceName !in env.invoices {
        return Err("Sales Invoice not found");
      }
      var inv := env.invoices[invoiceName];
      if inv.docstatus != 1 {
        return Err("Invoice must be submitted to redeem credit");
      }
      var savedJournals, savedAdvances := journals, advances;
      var created: seq<Created> := [];
      var i := 0;
      while i < |rows|
        invariant 0 <= i <= |rows|
        invariant RedeemRows(s0, inv, rows[..i], env) == Ok((State(), created))
        invariant savedJournals == s0.journals && savedAdvances == s0.advances
      {
        assert rows[..i + 1][..i] == rows[..i];
        var row := rows[i];
        ghost var step := Step(State(), inv, row, env);
        ghost var createdBefore := created;
        var amount := RedeemAmount(row);
        if amount > 0.0 {
          if row.kind == Some("Invoice") {
            if row.origin.None? || row.origin.value !in env.invoices {
              RedeemRowsErrPersists(s0, inv, rows, i + 1, env);
              journals, advances := savedJournals, savedAdvances;
              return Err("Sales Invoice not found");
            }
            var je := AllocationJournal(inv, env.invoices[row.origin.value], amount, env);
            created := created + [JournalCreated(|journals|)];
            journals := journals + [je];
          } else if row.kind == Some("Advance") {
            if row.origin.None? || row.origin.value !in advances {
              RedeemRowsErrPersists(s0, inv, rows, i + 1, env);
              journals, advances := savedJournals, savedAdvances;
              return Err("Payment Entry not found");
            }
            var pe := advances[row.origin.value];
            if pe.unallocated < amount {
              RedeemRowsErrPersists(s0, inv, rows, i + 1, env);
              journals, advances := savedJournals, savedAdvances;
              return Err("Payment Entry " + row.origin.value + " has insufficient unallocated amount");
            }
            advances := advances[row.origin.value := Allocated(pe, inv, amount)];
            created := created + [PaymentAllocated(row.origin.value)];
          }
        }
        assert step.Ok? && step.value.0 == State();
        assert created == createdBefore + (if step.value.1.Some? then [step.value.1.value] else []);
        i := i + 1;
      }
      assert rows[..|rows|] == rows;
      return Ok(created);
    }

    /** `cancel_credit_journal_entries`: cancels the redemption entries of
        the invoice one by one and counts them; an entry whose cancel
        fails is skipped. */
    method CancelCreditJournalEntries(invoiceName: string, fails: set<nat>) returns (count: nat)
      modifies this
      ensures journals == CancelJournals(old(journals), invoiceName, fails)
      ensures advances == old(advances)
      ensures count == CancelCount(old(journals), invoiceName, fails, |old(journals)|)
    {
      ghost var before := journals;
      count := 0;
      var j := 0;
      while j < |journals|
        invariant 0 <= j <= |journals| == |before|
        invariant advances == old(advances)
        invariant journals[..j] == CancelJournals(before, invoiceName, fails)[..j]
        invariant journals[j..] == before[j..]
        invariant count == CancelCount(before, invoiceName, fails, j)
      {
        var je := journals[j];
        assert je == before[j];
        var hasReference := exists a :: a in je.accounts && a.referenceType == "Sales Invoice" && a.referenceName == invoiceName;
        if je.docstatus == 1 && je.remark == Remark(invoiceName) && hasReference && j !in fails {
          journals := journals[j := je.(docstatus := 2)];
          count := count + 1;
        }
        j := j + 1;
      }
      assert journals == journals[..j];
    }
  }
}
