// The invoice computation engine of the POS client (useInvoice.js): per-line
// pricing under the inclusive and exclusive tax regimes, invoice totals kept
// incrementally by deltas, and the rebuild-from-scratch routine they must
// agree with. This module holds the data model and the
// operations as functions of the state; the lemmas about them are in
// InvoiceLemmas and the stateful object in Invoice.

module InvoiceModel {
  import opened Common

  /** One selectable unit of measure of an item. */
  datatype UomFactor = UomFactor(uom: string, conversionFactor: Option<real>)

  /** An item as the catalogue hands it to `addItem`. Numeric fields read
      as 0 when the catalogue leaves them out; strings read as "". */
  datatype CatalogItem = CatalogItem(
    code: string, name: string, rate: real, priceListRate: real,
    stockQty: real, uom: string, stockUom: string, conversionFactor: real,
    warehouse: string, itemUoms: seq<UomFactor>)

  /** A cart line. */
  datatype Line = Line(
    code: string, name: string, qty: real, rate: real, priceListRate: real,
    discountPercentage: real, discountAmount: real, taxAmount: real,
    amount: real, stockQty: real, uom: string, stockUom: string,
    conversionFactor: real, warehouse: string, itemUoms: seq<UomFactor>)

  datatype Payment = Payment(mode: string, amount: real, kind: string)

  /** A payment as the UI submits it; `amount` is the result of
      `parseFloat`, `None` for NaN. */
  datatype PaymentInput = PaymentInput(mode: string, amount: Option<real>, kind: string)

  datatype TaxRule = TaxRule(chargeType: string, rate: real)

  /** An invoice-level discount (coupon or offer): a missing percentage or
      amount reads as 0. */
  datatype Discount = Discount(percentage: real, amount: real, name: Option<string>, code: Option<string>)

  /** The four incrementally maintained aggregates. */
  datatype Totals = Totals(subtotal: real, tax: real, discount: real, paid: real)

  /** The whole observable state of one invoice. */
  datatype InvoiceState = InvoiceState(
    items: seq<Line>, customer: Option<string>, payments: seq<Payment>,
    additionalDiscount: real, couponCode: Option<string>,
    taxRules: seq<TaxRule>, taxInclusive: bool, cache: Totals)

  // ---------------------------------------------------------------------
  // Sums over lines and payments
  // ---------------------------------------------------------------------

  /** The undiscounted unit price: `price_list_rate || rate`. */
  function ListRate(l: Line): real
  {
    Or(l.priceListRate, l.rate)
  }

  /** What the subtotal counts for a line: quantity times the list rate. */
  function LineBase(l: Line): real
  {
    l.qty * ListRate(l)
  }

  function LineTax(l: Line): real
  {
    l.taxAmount
  }

  function LineDiscount(l: Line): real
  {
    l.discountAmount
  }

  /** What a line contributes to the grand total. */
  function LineTotal(l: Line): real
  {
    l.amount + l.taxAmount
  }

  /** The sum of `f` over the lines, accumulated front to back. */
  function Total(s: seq<Line>, f: Line -> real): real
  {
    if s == [] then 0.0 else Total(s[..|s| - 1], f) + f(s[|s| - 1])
  }

  function PaidTotal(p: seq<Payment>): real
  {
    if p == [] then 0.0 else PaidTotal(p[..|p| - 1]) + p[|p| - 1].amount
  }

  /** What `rebuildIncrementalCache` computes from scratch. */
  function Rebuild(items: seq<Line>, payments: seq<Payment>): Totals
  {
    Totals(Total(items, LineBase), Total(items, LineTax),
           Total(items, LineDiscount), PaidTotal(payments))
  }

  /** `payments.splice(i, 1)` for an index inside the list. */
  function RemoveAt(p: seq<Payment>, i: nat): (r: seq<Payment>)
    requires i < |p|
    ensures |r| == |p| - 1
    ensures forall j :: 0 <= j < i ==> r[j] == p[j]
    ensures forall j :: i <= j < |r| ==> r[j] == p[j + 1]
  {
    p[..i] + p[i + 1..]
  }

  // ---------------------------------------------------------------------
  // Item codes
  // ---------------------------------------------------------------------

  predicate UniqueCodes(s: seq<Line>)
  {
    forall i, j :: 0 <= i < j < |s| ==> s[i].code != s[j].code
  }

  /** `invoiceItems.find(i => i.item_code === code)`: the first line with
      that code, if any. */
  function FindLine(s: seq<Line>, code: string): (r: Option<nat>)
    ensures r.Some? ==> r.value < |s| && s[r.value].code == code
    ensures r.Some? ==> forall j :: 0 <= j < r.value ==> s[j].code != code
    ensures r.None? <==> forall j :: 0 <= j < |s| ==> s[j].code != code
  {
    if s == [] then None
    else if s[0].code == code then Some(0)
    else match FindLine(s[1..], code)
      case None => None
      case Some(k) => Some(k + 1)
  }

  /** `invoiceItems.filter(i => i.item_code !== code)`. */
  function Without(s: seq<Line>, code: string): (r: seq<Line>)
    ensures forall x :: x in r ==> x in s && x.code != code
    ensures forall x :: x in s && x.code != code ==> x in r
    ensures |r| <= |s|
  {
    if s == [] then []
    else
      var rest := Without(s[..|s| - 1], code);
      var last := s[|s| - 1];
      assert s == s[..|s| - 1] + [last];
      if last.code == code then rest else rest + [last]
  }

  // ---------------------------------------------------------------------
  // Line pricing
  // ---------------------------------------------------------------------

  /** The total rate of the tax rules that apply to the net amount. */
  function TaxRateSum(rules: seq<TaxRule>): real
  {
    if rules == [] then 0.0
    else TaxRateSum(rules[..|rules| - 1]) + RuleShare(rules[|rules| - 1])
  }

  function RuleShare(t: TaxRule): real
  {
    if t.chargeType == "On Net Total" || t.chargeType == "On Previous Row Total"
    then t.rate else 0.0
  }

  /** The inclusive regime applies only with a positive total rate. */
  predicate InclusiveActive(totalRate: real, inclusive: bool)
  {
    inclusive && totalRate > 0.0
  }

  /** The line discount that `recalculateItem` settles on. */
  function SettledDiscount(l: Line): real
  {
    if l.discountPercentage > 0.0 then LineBase(l) * l.discountPercentage / 100.0
    else if l.discountAmount > 0.0 then l.discountAmount
    else 0.0
  }

  /** The percentage it keeps: back-computed from a fixed amount. */
  function SettledPercentage(l: Line): real
  {
    if l.discountPercentage > 0.0 then l.discountPercentage
    else if l.discountAmount > 0.0 then
      (if LineBase(l) > 0.0 then l.discountAmount / LineBase(l) * 100.0 else 0.0)
    else l.discountPercentage
  }

  /** The net amount of a discounted gross. */
  function NetAmount(gross: real, totalRate: real, inclusive: bool): real
  {
    if InclusiveActive(totalRate, inclusive) then gross / (1.0 + totalRate / 100.0) else gross
  }

  function TaxAmount(gross: real, totalRate: real, inclusive: bool): real
  {
    if InclusiveActive(totalRate, inclusive) then gross - NetAmount(gross, totalRate, inclusive)
    else NetAmount(gross, totalRate, inclusive) * totalRate / 100.0
  }

  /** The effective unit rate: tax included in the inclusive regime. */
  function UnitRate(qty: real, gross: real, listRate: real, totalRate: real, inclusive: bool): real
  {
    var net := NetAmount(gross, totalRate, inclusive);
    var tax := TaxAmount(gross, totalRate, inclusive);
    if qty > 0.0 then
      (if InclusiveActive(totalRate, inclusive) then (net + tax) / qty else net / qty)
    else listRate
  }

  /** `recalculateItem`: the line priced with the given total tax rate. */
  function Recalculate(l: Line, totalRate: real, inclusive: bool): (r: Line)
    ensures r.code == l.code && r.qty == l.qty && r.priceListRate == l.priceListRate
    ensures r.uom == l.uom && r.conversionFactor == l.conversionFactor
    ensures r.warehouse == l.warehouse && r.itemUoms == l.itemUoms
  {
    var gross := LineBase(l) - SettledDiscount(l);
    l.(discountPercentage := SettledPercentage(l), discountAmount := SettledDiscount(l),
       taxAmount := TaxAmount(gross, totalRate, inclusive),
       rate := UnitRate(l.qty, gross, ListRate(l), totalRate, inclusive),
       amount := NetAmount(gross, totalRate, inclusive))
  }

  /** A repriced line is "settled": its amount (plus tax when the invoice
      is tax-inclusive) is what its base less its discount comes to. */
  predicate Settled(l: Line, inclusive: bool)
  {
    if inclusive then l.amount + l.taxAmount == LineBase(l) - l.discountAmount
    else l.amount == LineBase(l) - l.discountAmount
  }

  // ---------------------------------------------------------------------
  // The invoice state and its totals
  // ---------------------------------------------------------------------

  /** The cached aggregates agree with a rebuild from scratch. */
  predicate CacheValid(s: InvoiceState)
  {
    s.cache == Rebuild(s.items, s.payments)
  }

  predicate Valid(s: InvoiceState)
  {
    UniqueCodes(s.items) && CacheValid(s)
  }

  function TotalDiscount(s: InvoiceState): real
  {
    s.cache.discount + s.additionalDiscount
  }

  function GrandTotal(s: InvoiceState): real
  {
    if s.taxInclusive then s.cache.subtotal - TotalDiscount(s)
    else s.cache.subtotal + s.cache.tax - TotalDiscount(s)
  }

  function Remaining(s: InvoiceState): real
  {
    GrandTotal(s) - s.cache.paid
  }

  predicate CanSubmit(s: InvoiceState)
  {
    |s.items| > 0 && Remaining(s) <= 0.01
  }

  /** `change_amount` sent on submission. */
  function ChangeAmount(s: InvoiceState): (r: real)
    ensures r >= 0.0
    ensures Remaining(s) >= 0.0 ==> r == 0.0
    ensures Remaining(s) < 0.0 ==> Remaining(s) + r == 0.0
  {
    if Remaining(s) < 0.0 then AbsReal(Remaining(s)) else 0.0
  }

  /** Grand total as computed from the lines and payments themselves. */
  function GrandFromScratch(s: InvoiceState): real
  {
    var t := Rebuild(s.items, s.payments);
    if s.taxInclusive then t.subtotal - t.discount - s.additionalDiscount
    else t.subtotal + t.tax - t.discount - s.additionalDiscount
  }

  function NetOfDiscount(l: Line): real
  {
    LineBase(l) - l.discountAmount
  }

  function NetPlusTax(l: Line): real
  {
    LineBase(l) + l.taxAmount - l.discountAmount
  }

  /** An empty invoice with the given tax settings. */
  function EmptyInvoice(rules: seq<TaxRule>, inclusive: bool): (s: InvoiceState)
    ensures Valid(s)
  {
    InvoiceState([], None, [], 0.0, None, rules, inclusive, Totals(0.0, 0.0, 0.0, 0.0))
  }

  // ---------------------------------------------------------------------
  // The mutators as transitions of the state
  // ---------------------------------------------------------------------

  /** The line `addItem` creates for an item not yet in the cart. */
  function NewLine(item: CatalogItem, quantity: real): (l: Line)
    ensures l.code == item.code && l.qty == quantity
    ensures l.discountPercentage == 0.0 && l.discountAmount == 0.0 && l.taxAmount == 0.0
    ensures l.rate == item.rate || (item.rate == 0.0 && l.rate == item.priceListRate)
    ensures l.priceListRate == item.priceListRate || (item.priceListRate == 0.0 && l.priceListRate == item.rate)
    ensures l.conversionFactor != 0.0
    ensures item.uom != "" ==> l.uom == item.uom
    ensures item.uom == "" ==> l.uom == item.stockUom
  {
    var rate := Or(item.rate, item.priceListRate);
    Line(item.code, item.name, quantity, rate, Or(item.priceListRate, item.rate),
         0.0, 0.0, 0.0, quantity * rate, item.stockQty,
         if item.uom != "" then item.uom else item.stockUom, item.stockUom,
         Or(item.conversionFactor, 1.0), item.warehouse, item.itemUoms)
  }

  /** Replace line `i` by the repriced `edited` line and move each cached
      aggregate by the line's new share minus its old share. */
  function Touch(s: InvoiceState, i: nat, edited: Line): InvoiceState
    requires i < |s.items|
  {
    var before := s.items[i];
    var after := Recalculate(edited, TaxRateSum(s.taxRules), s.taxInclusive);
    s.(items := s.items[i := after],
       cache := s.cache.(
         subtotal := s.cache.subtotal + LineBase(after) - LineBase(before),
         tax := s.cache.tax + after.taxAmount - before.taxAmount,
         discount := s.cache.discount + after.discountAmount - before.discountAmount))
  }

  function AddItemStep(s: InvoiceState, item: CatalogItem, quantity: real): InvoiceState
  {
    match FindLine(s.items, item.code)
    case Some(i) => Touch(s, i, s.items[i].(qty := s.items[i].qty + quantity))
    case None => AppendNew(s, item, quantity)
  }

  /** A fresh line for an item not yet on the invoice, priced and added to
      the cached aggregates. */
  function AppendNew(s: InvoiceState, item: CatalogItem, quantity: real): InvoiceState
  {
    var after := Recalculate(NewLine(item, quantity), TaxRateSum(s.taxRules), s.taxInclusive);
    s.(items := s.items + [after],
       cache := s.cache.(
         subtotal := s.cache.subtotal + LineBase(after),
         tax := s.cache.tax + after.taxAmount,
         discount := s.cache.discount + after.discountAmount))
  }

  function RemoveItemStep(s: InvoiceState, code: string): InvoiceState
  {
    var cache :=
      match FindLine(s.items, code)
      case None => s.cache
      case Some(i) =>
        var l := s.items[i];
        s.cache.(subtotal := s.cache.subtotal - LineBase(l),
                 tax := s.cache.tax - l.taxAmount,
                 discount := s.cache.discount - l.discountAmount);
    s.(items := Without(s.items, code), cache := cache)
  }

  /** `updateItemQuantity`: `parseFloat(q) || 1`. */
  function UpdateQuantityStep(s: InvoiceState, code: string, quantity: Option<real>): InvoiceState
  {
    match FindLine(s.items, code)
    case None => s
    case Some(i) => Touch(s, i, s.items[i].(qty := OrNum(quantity, 1.0)))
  }

  /** `updateItemRate`: `parseFloat(r) || 0`. */
  function UpdateRateStep(s: InvoiceState, code: string, rate: Option<real>): InvoiceState
  {
    match FindLine(s.items, code)
    case None => s
    case Some(i) => Touch(s, i, s.items[i].(rate := OrNum(rate, 0.0)))
  }

  /** The percentage `updateItemDiscount` accepts: parsed, NaN as 0,
      clamped into [0, 100]. */
  function ClampPercentage(p: Option<real>): (r: real)
    ensures 0.0 <= r <= 100.0
    ensures p.Some? && 0.0 <= p.value <= 100.0 ==> r == p.value
    ensures p.Some? && p.value > 100.0 ==> r == 100.0
    ensures (p.None? || p.value <= 0.0) ==> r == 0.0
  {
    var v := OrNum(p, 0.0);
    if v < 0.0 then 0.0 else if v > 100.0 then 100.0 else v
  }

  function UpdateDiscountStep(s: InvoiceState, code: string, percentage: Option<real>): InvoiceState
  {
    match FindLine(s.items, code)
    case None => s
    case Some(i) =>
      Touch(s, i, s.items[i].(discountPercentage := ClampPercentage(percentage), discountAmount := 0.0))
  }

  function AddPaymentStep(s: InvoiceState, p: PaymentInput): InvoiceState
  {
    var amount := OrNum(p.amount, 0.0);
    s.(payments := s.payments + [Payment(p.mode, amount, p.kind)],
       cache := s.cache.(paid := s.cache.paid + amount))
  }

  /** `removePayment` with the index kept inside the list: an index
      outside it changes nothing. */
  function RemovePaymentStep(s: InvoiceState, index: int): InvoiceState
  {
    if 0 <= index < |s.payments| then
      s.(payments := RemoveAt(s.payments, index),
         cache := s.cache.(paid := s.cache.paid - s.payments[index].amount))
    else s
  }

  /** `removePayment` as written: `payments[index]` is undefined for a
      negative index, so nothing is subtracted, but `splice(index, 1)`
      counts a negative index from the end and removes a payment. */
  function RemovePaymentAsWritten(s: InvoiceState, index: int): InvoiceState
  {
    if 0 <= index < |s.payments| then RemovePaymentStep(s, index)
    else if index < 0 && |s.payments| > 0 then
      var k := if |s.payments| + index < 0 then 0 else |s.payments| + index;
      s.(payments := RemoveAt(s.payments, k))
    else s
  }

  function UpdatePaymentStep(s: InvoiceState, index: int, amount: Option<real>): InvoiceState
  {
    if 0 <= index < |s.payments| then
      var newAmount := OrNum(amount, 0.0);
      s.(payments := s.payments[index := s.payments[index].(amount := newAmount)],
         cache := s.cache.(paid := s.cache.paid + newAmount - s.payments[index].amount))
    else s
  }

  /** `calculateDiscountAmount`: a percentage of the base, else a fixed
      amount, else nothing. */
  function DiscountAmount(d: Option<Discount>, base: real): (r: real)
    ensures d.None? ==> r == 0.0
    ensures d.Some? && d.value.percentage > 0.0 ==> r == base * d.value.percentage / 100.0
    ensures d.Some? && d.value.percentage <= 0.0 && d.value.amount > 0.0 ==> r == d.value.amount
    ensures d.Some? && d.value.percentage <= 0.0 && d.value.amount <= 0.0 ==> r == 0.0
  {
    match d
    case None => 0.0
    case Some(x) =>
      if x.percentage > 0.0 then base * x.percentage / 100.0
      else if x.amount > 0.0 then x.amount
      else 0.0
  }

  /** On a non-negative base a percentage in (0, 100] gives a discount in
      [0, base], and a full percentage the whole base; a fixed amount
      exceeds the base only when it is itself larger, which is why
      `applyDiscount` clamps it. */
  lemma DiscountAmountBounds(d: Discount, base: real)
    requires base >= 0.0
    ensures 0.0 < d.percentage <= 100.0 ==> 0.0 <= DiscountAmount(Some(d), base) <= base
    ensures d.percentage == 100.0 ==> DiscountAmount(Some(d), base) == base
    ensures DiscountAmount(Some(d), base) > base ==> d.percentage > 100.0 || (d.percentage <= 0.0 && d.amount > base)
  {
    if 0.0 < d.percentage <= 100.0 {
      assert base * d.percentage <= base * 100.0;
    }
  }

  /** The additional discount `applyDiscount` settles on: clamped to the
      subtotal, then to zero. */
  function ClampedDiscount(d: Discount, subtotal: real): (r: real)
    ensures r >= 0.0
    ensures subtotal >= 0.0 ==> r <= subtotal
    ensures 0.0 <= DiscountAmount(Some(d), subtotal) <= subtotal ==> r == DiscountAmount(Some(d), subtotal)
  {
    var a := DiscountAmount(Some(d), subtotal);
    var b := if a > subtotal then subtotal else a;
    if b < 0.0 then 0.0 else b
  }

  function ApplyDiscountStep(s: InvoiceState, d: Option<Discount>): InvoiceState
  {
    match d
    case None => s
    case Some(x) =>
      s.(couponCode := OrStr(x.code, x.name),
         additionalDiscount := ClampedDiscount(x, s.cache.subtotal),
         cache := Rebuild(s.items, s.payments))
  }

  function RemoveDiscountStep(s: InvoiceState): InvoiceState
  {
    s.(additionalDiscount := 0.0, couponCode := None, cache := Rebuild(s.items, s.payments))
  }

  /** `resetInvoice` (and the local part of `clearCart`): tax settings stay. */
  function ResetStep(s: InvoiceState): InvoiceState
  {
    s.(items := [], customer := None, payments := [], additionalDiscount := 0.0,
       couponCode := None, cache := Totals(0.0, 0.0, 0.0, 0.0))
  }

  /** Every line repriced in order. */
  function RecalculateAll(items: seq<Line>, totalRate: real, inclusive: bool): (r: seq<Line>)
    ensures |r| == |items|
    ensures forall i :: 0 <= i < |items| ==> r[i] == Recalculate(items[i], totalRate, inclusive)
  {
    if items == [] then []
    else RecalculateAll(items[..|items| - 1], totalRate, inclusive)
         + [Recalculate(items[|items| - 1], totalRate, inclusive)]
  }

  function SetTaxInclusiveStep(s: InvoiceState, value: bool): InvoiceState
  {
    var items := RecalculateAll(s.items, TaxRateSum(s.taxRules), value);
    s.(taxInclusive := value, items := items, cache := Rebuild(items, s.payments))
  }

  /** `loadTaxRules`. `fetched` is the server's answer (`None` when the call
      throws); `settingInclusive` is the POS settings' `tax_inclusive` when
      that field is present. */
  function LoadTaxRulesStep(s: InvoiceState, fetched: Option<seq<TaxRule>>, settingInclusive: Option<bool>): InvoiceState
  {
    match fetched
    case None => s.(taxRules := [])
    case Some(rules) =>
      var inclusive := Coalesce(settingInclusive, s.taxInclusive);
      var items := RecalculateAll(s.items, TaxRateSum(rules), inclusive);
      s.(taxRules := rules, taxInclusive := inclusive, items := items,
         cache := Rebuild(items, s.payments))
  }

  /** Loading fetched rules is setting the rules and then the regime. */
  lemma LoadIsSetInclusive(s: InvoiceState, rules: seq<TaxRule>, settingInclusive: Option<bool>)
    ensures LoadTaxRulesStep(s, Some(rules), settingInclusive)
      == SetTaxInclusiveStep(s.(taxRules := rules), Coalesce(settingInclusive, s.taxInclusive))
  {
  }

  // ---------------------------------------------------------------------
  // The central property: each mutator keeps the cache equal to a rebuild
  // ---------------------------------------------------------------------

  /** An invoice operation, as the UI issues them. */
  datatype Op =
    | AddItemOp(item: CatalogItem, quantity: real)
    | RemoveItemOp(code: string)
    | UpdateQuantityOp(code: string, newQuantity: Option<real>)
    | UpdateRateOp(code: string, rate: Option<real>)
    | UpdateDiscountOp(code: string, percentage: Option<real>)
    | AddPaymentOp(payment: PaymentInput)
    | RemovePaymentOp(index: int)
    | UpdatePaymentOp(index: int, amount: Option<real>)
    | ApplyDiscountOp(discount: Option<Discount>)
    | RemoveDiscountOp
    | SetTaxInclusiveOp(value: bool)
    | LoadTaxRulesOp(fetched: Option<seq<TaxRule>>, settingInclusive: Option<bool>)
    | ResetOp

  function Apply(s: InvoiceState, op: Op): InvoiceState
  {
    match op
    case AddItemOp(item, q) => AddItemStep(s, item, q)
    case RemoveItemOp(c) => RemoveItemStep(s, c)
    case UpdateQuantityOp(c, q) => UpdateQuantityStep(s, c, q)
    case UpdateRateOp(c, r) => UpdateRateStep(s, c, r)
    case UpdateDiscountOp(c, p) => UpdateDiscountStep(s, c, p)
    case AddPaymentOp(p) => AddPaymentStep(s, p)
    case RemovePaymentOp(i) => RemovePaymentStep(s, i)
    case UpdatePaymentOp(i, a) => UpdatePaymentStep(s, i, a)
    case ApplyDiscountOp(d) => ApplyDiscountStep(s, d)
    case RemoveDiscountOp => RemoveDiscountStep(s)
    case SetTaxInclusiveOp(v) => SetTaxInclusiveStep(s, v)
    case LoadTaxRulesOp(f, i) => LoadTaxRulesStep(s, f, i)
    case ResetOp => ResetStep(s)
  }

  function Run(s: InvoiceState, ops: seq<Op>): InvoiceState
    decreases |ops|
  {
    if ops == [] then s else Run(Apply(s, ops[0]), ops[1..])
  }

  /** The stock-validation rows `validateStock` sends: one per line, with
      the quantity in stock units. */
  datatype StockRow = StockRow(code: string, qty: real, warehouse: string, conversionFactor: real, stockQty: real)

  function StockRows(items: seq<Line>): (r: seq<StockRow>)
    ensures |r| == |items|
    ensures forall i :: 0 <= i < |items| ==>
      r[i].code == items[i].code && r[i].qty == items[i].qty &&
      r[i].conversionFactor != 0.0 &&
      r[i].stockQty == items[i].qty * r[i].conversionFactor &&
      (items[i].conversionFactor != 0.0 ==> r[i].conversionFactor == items[i].conversionFactor)
  {
    if items == [] then []
    else
      var l := items[|items| - 1];
      var cf := Or(l.conversionFactor, 1.0);
      StockRows(items[..|items| - 1]) + [StockRow(l.code, l.qty, l.warehouse, cf, l.qty * cf)]
  }

  // ---------------------------------------------------------------------
  // The invoice object: the stateful form the client code has
  // ---------------------------------------------------------------------
}
