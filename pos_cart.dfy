// The cart store of the POS client (posCart.js), as functions of the state:
// the offer round trip that sends the cart to the server and writes the
// returned per-line discounts back, the offer flags, the unit-of-measure
// switch and the stock-checked add. The stateful store is in PosCart.

module PosCartModel {
  import opened Common
  import opened InvoiceModel

  // ---------------------------------------------------------------------
  // Writing server discounts back onto the cart
  // ---------------------------------------------------------------------

  /** One row of the server's `items` answer; the numeric fields are the
      results of `parseFloat`, `None` for NaN or a missing field. */
  datatype ServerRow = ServerRow(code: Option<string>, discountPercentage: Option<real>, discountAmount: Option<real>)

  /** `discountMap`: the rows keyed by their item code, rows without a
      (truthy) code skipped, a later row replacing an earlier one. */
  function DiscountMap(rows: seq<ServerRow>): map<string, ServerRow>
  {
    if rows == [] then map[]
    else
      var m := DiscountMap(rows[..|rows| - 1]);
      var last := rows[|rows| - 1];
      if Truthy(last.code) then m[last.code.value := last] else m
  }

  /** The index of the last row carrying `code`, if any. */
  function LastRow(rows: seq<ServerRow>, code: string): (r: Option<nat>)
    ensures r.Some? ==> r.value < |rows| && rows[r.value].code == Some(code)
    ensures r.Some? ==> forall k :: r.value < k < |rows| ==> rows[k].code != Some(code)
    ensures r.None? <==> forall k :: 0 <= k < |rows| ==> rows[k].code != Some(code)
  {
    if rows == [] then None
    else if rows[|rows| - 1].code == Some(code) then Some(|rows| - 1)
    else LastRow(rows[..|rows| - 1], code)
  }

  /** `parseFloat(serverItem.discount_percentage) || 0` for the row matched
      by `code` (an unmatched line reads the empty object). */
  function MatchedPercentage(m: map<string, ServerRow>, code: string): real
  {
    if code in m then OrNum(m[code].discountPercentage, 0.0) else 0.0
  }

  function MatchedAmount(m: map<string, ServerRow>, code: string): real
  {
    if code in m then OrNum(m[code].discountAmount, 0.0) else 0.0
  }

  /** The two discount fields overwritten from the server's answer. */
  function WithServerDiscount(l: Line, m: map<string, ServerRow>): (r: Line)
    ensures r == l.(discountPercentage := r.discountPercentage, discountAmount := r.discountAmount)
    ensures l.code !in m ==> r.discountPercentage == 0.0 && r.discountAmount == 0.0
  {
    l.(discountPercentage := MatchedPercentage(m, l.code), discountAmount := MatchedAmount(m, l.code))
  }

  /** A line that received a non-zero percentage or amount. */
  predicate Discounted(m: map<string, ServerRow>, l: Line)
  {
    MatchedPercentage(m, l.code) != 0.0 || MatchedAmount(m, l.code) != 0.0
  }

  /** The `hasDiscounts` flag after the first `n` turns. */
  predicate DiscountedWithin(m: map<string, ServerRow>, items: seq<Line>, n: nat)
    requires n <= |items|
    decreases n
  {
    n > 0 && (DiscountedWithin(m, items, n - 1) || Discounted(m, items[n - 1]))
  }

  /** Same length and the same item code at every position. */
  predicate SameCodes(a: seq<Line>, b: seq<Line>)
  {
    |a| == |b| && forall k :: 0 <= k < |a| ==> a[k].code == b[k].code
  }

  /** One turn of the `forEach` as written: overwrite the discount fields of
      line `i` in place, then call `updateItemQuantity` with the line's own
      quantity, which reads the overwritten discount as the "old" one. */
  function ServerStep(s: InvoiceState, i: nat, m: map<string, ServerRow>): (r: InvoiceState)
    requires i < |s.items|
    ensures SameCodes(r.items, s.items)
    ensures r.taxRules == s.taxRules && r.taxInclusive == s.taxInclusive && r.payments == s.payments
  {
    var l := WithServerDiscount(s.items[i], m);
    UpdateQuantityStep(s.(items := s.items[i := l]), l.code, Some(l.qty))
  }

  /** The first `n` turns of the loop. */
  function ServerPass(s: InvoiceState, m: map<string, ServerRow>, n: nat): (r: InvoiceState)
    requires n <= |s.items|
    ensures SameCodes(r.items, s.items)
    ensures r.taxRules == s.taxRules && r.taxInclusive == s.taxInclusive && r.payments == s.payments
    decreases n
  {
    if n == 0 then s else ServerStep(ServerPass(s, m, n - 1), n - 1, m)
  }

  datatype DiscountOutcome = DiscountOutcome(state: InvoiceState, hasDiscounts: bool)

  /** `applyServerDiscounts` as written; `rows` is `None` when the argument
      is not an array. The cached totals are left as the loop leaves them. */
  function ApplyServerDiscountsAsWritten(s: InvoiceState, rows: Option<seq<ServerRow>>): DiscountOutcome
  {
    match rows
    case None => DiscountOutcome(s, false)
    case Some(rs) =>
      var m := DiscountMap(rs);
      DiscountOutcome(ServerPass(s, m, |s.items|), DiscountedWithin(m, s.items, |s.items|))
  }

  /** `applyServerDiscounts` with the cache rebuilt after the loop, the way
      `loadTaxRules` and `applyDiscount` close their own passes. */
  function ApplyServerDiscounts(s: InvoiceState, rows: Option<seq<ServerRow>>): (r: DiscountOutcome)
    ensures rows.None? ==> r == DiscountOutcome(s, false)
  {
    var o := ApplyServerDiscountsAsWritten(s, rows);
    if rows.None? then o
    else o.(state := o.state.(cache := Rebuild(o.state.items, o.state.payments)))
  }

  /** What each line becomes: its server discount written in, its quantity
      through `parseFloat(q) || 1`, repriced. */
  function Repriced(l: Line, m: map<string, ServerRow>, totalRate: real, inclusive: bool): Line
  {
    var w := WithServerDiscount(l, m);
    Recalculate(w.(qty := OrNum(Some(w.qty), 1.0)), totalRate, inclusive)
  }

  // ---------------------------------------------------------------------
  // Switching a line's unit of measure
  // ---------------------------------------------------------------------

  /** What `getItemDetails` answers for the new unit; missing numbers read
      as 0. */
  datatype ItemDetails = ItemDetails(priceListRate: real, rate: real, conversionFactor: real)

  /** `item_uoms.find(u => u.uom === uom)?.conversion_factor`. */
  function UomFactorOf(uoms: seq<UomFactor>, uom: string): (r: Option<real>)
    ensures r.Some? ==> exists k :: 0 <= k < |uoms| && uoms[k].uom == uom && uoms[k].conversionFactor == r
    ensures (forall k :: 0 <= k < |uoms| ==> uoms[k].uom != uom) ==> r.None?
  {
    if uoms == [] then None
    else if uoms[0].uom == uom then uoms[0].conversionFactor
    else UomFactorOf(uoms[1..], uom)
  }

  /** The line with the new unit, factor and the rates of the new unit. */
  function UomEdited(l: Line, newUom: string, d: ItemDetails): (r: Line)
    ensures r.code == l.code && r.qty == l.qty && r.uom == newUom
    ensures r.conversionFactor != 0.0
    ensures r.priceListRate == d.priceListRate && (d.priceListRate != 0.0 ==> r.rate == d.priceListRate)
  {
    l.(uom := newUom,
       conversionFactor := OrNum(UomFactorOf(l.itemUoms, newUom), Or(d.conversionFactor, 1.0)),
       rate := Or(d.priceListRate, d.rate),
       priceListRate := d.priceListRate)
  }

  /** `changeItemUOM` as written: the line is repriced in place and the
      cached totals are not touched. `details` is `None` when the lookup
      throws. */
  function ChangeUomAsWritten(s: InvoiceState, code: string, newUom: string, details: Option<ItemDetails>): InvoiceState
  {
    match FindLine(s.items, code)
    case None => s
    case Some(i) =>
      if details.None? then s
      else s.(items := s.items[i := Recalculate(UomEdited(s.items[i], newUom, details.value),
                                                TaxRateSum(s.taxRules), s.taxInclusive)])
  }

  /** `changeItemUOM` with the cache moved by the line's delta, as every
      mutator of the invoice does. */
  function ChangeUom(s: InvoiceState, code: string, newUom: string, details: Option<ItemDetails>): InvoiceState
  {
    match FindLine(s.items, code)
    case None => s
    case Some(i) =>
      if details.None? then s
      else Touch(s, i, UomEdited(s.items[i], newUom, details.value))
  }

  // ---------------------------------------------------------------------
  // The request sent with an offer
  // ---------------------------------------------------------------------

  /** The fields of the current POS profile the cart reads. */
  datatype Profile = Profile(
    customer: Option<string>, company: Option<string>, sellingPriceList: Option<string>,
    currency: Option<string>, warehouse: string)

  datatype OfferRow = OfferRow(
    code: string, name: string, qty: real, rate: real, uom: string, warehouse: string,
    conversionFactor: real, priceListRate: real)

  datatype OfferRequest = OfferRequest(
    posProfile: Option<string>, customer: Option<string>, company: Option<string>,
    sellingPriceList: Option<string>, currency: Option<string>, items: seq<OfferRow>)

  function OfferRowOf(l: Line): (r: OfferRow)
    ensures r.code == l.code && r.qty == l.qty && r.rate == l.rate
    ensures r.priceListRate == ListRate(l)
    ensures r.conversionFactor != 0.0
  {
    OfferRow(l.code, l.name, l.qty, l.rate, l.uom, l.warehouse, Or(l.conversionFactor, 1.0),
             Or(l.priceListRate, l.rate))
  }

  function OfferRows(items: seq<Line>): (r: seq<OfferRow>)
    ensures |r| == |items|
    ensures forall k :: 0 <= k < |items| ==> r[k] == OfferRowOf(items[k])
  {
    if items == [] then [] else OfferRows(items[..|items| - 1]) + [OfferRowOf(items[|items| - 1])]
  }

  /** `buildInvoiceDataForOffers`. */
  function BuildInvoiceDataForOffers(s: InvoiceState, posProfile: Option<string>, profile: Option<Profile>): (r: OfferRequest)
    ensures r.items == OfferRows(s.items)
    ensures Truthy(s.customer) ==> r.customer == s.customer
    ensures !Truthy(s.customer) && profile.Some? ==> r.customer == profile.value.customer
  {
    OfferRequest(posProfile,
                 OrStr(s.customer, if profile.Some? then profile.value.customer else None),
                 if profile.Some? then profile.value.company else None,
                 if profile.Some? then profile.value.sellingPriceList else None,
                 if profile.Some? then profile.value.currency else None,
                 OfferRows(s.items))
  }

  /** Sum of `qty * price_list_rate` over the request rows. */
  function RowsBase(rows: seq<OfferRow>): real
  {
    if rows == [] then 0.0 else RowsBase(rows[..|rows| - 1]) + rows[|rows| - 1].qty * rows[|rows| - 1].priceListRate
  }

  // ---------------------------------------------------------------------
  // The store's flags around offers
  // ---------------------------------------------------------------------

  datatype Offer = Offer(name: string, title: Option<string>)

  /** `autoAppliedOffer`. */
  datatype AppliedOffer = AppliedOffer(name: string, code: string, source: string, rules: seq<string>)

  /** The offer endpoint's answer: it throws, or it replies with `items`
      (`None` when they are not an array; a missing list reads as the
      empty one) and possibly `applied_pricing_rules`. */
  datatype OfferResponse = Threw | Replied(rows: Option<seq<ServerRow>>, appliedRules: Option<seq<string>>)

  datatype CartState = CartState(
    invoice: InvoiceState, posProfile: Option<string>, suppressOfferReapply: bool,
    autoAppliedOffer: Option<AppliedOffer>, appliedCoupon: Option<Discount>)

  datatype OfferOutcome = OfferOutcome(cart: CartState, result: Option<bool>)

  /** `applyOffer`; a `None` result is the bare `return`. */
  function ApplyOfferStep(c: CartState, offer: Option<Offer>, response: OfferResponse): OfferOutcome
  {
    if offer.None? || !Truthy(c.posProfile) || |c.invoice.items| == 0 then OfferOutcome(c, None)
    else match response
      case Threw => OfferOutcome(c, Some(false))
      case Replied(rows, rules) =>
        var o := ApplyServerDiscounts(c.invoice, rows);
        var c1 := c.(suppressOfferReapply := true, invoice := o.state);
        if o.hasDiscounts then
          var x := offer.value;
          var applied := AppliedOffer(if Truthy(x.title) then x.title.value else x.name, x.name, "manual",
                                      Coalesce(rules, [x.name]));
          OfferOutcome(c1.(autoAppliedOffer := Some(applied)), Some(true))
        else OfferOutcome(c1, Some(false))
  }

  /** `removeOffer`. */
  function RemoveOfferStep(c: CartState): CartState
  {
    c.(suppressOfferReapply := true, autoAppliedOffer := None, invoice := RemoveDiscountStep(c.invoice))
  }

  /** `removeDiscountFromCart`: `removeOffer` that also forgets the coupon. */
  function RemoveDiscountFromCartStep(c: CartState): CartState
  {
    c.(suppressOfferReapply := true, autoAppliedOffer := None, invoice := RemoveDiscountStep(c.invoice),
       appliedCoupon := None)
  }

  function ApplyDiscountToCartStep(c: CartState, d: Discount): CartState
  {
    c.(invoice := ApplyDiscountStep(c.invoice, Some(d)), appliedCoupon := Some(d))
  }

  /** The condition under which `reapplyOffer` calls the server. */
  predicate ReapplyCalls(c: CartState)
  {
    |c.invoice.items| > 0 && c.autoAppliedOffer.Some? && !c.suppressOfferReapply
  }

  /** `reapplyOffer`. */
  function ReapplyOfferStep(c: CartState, response: OfferResponse): CartState
  {
    if |c.invoice.items| == 0 && c.autoAppliedOffer.Some? then c.(autoAppliedOffer := None)
    else
      var c1 :=
        if ReapplyCalls(c) && response.Replied? then
          c.(suppressOfferReapply := true, invoice := ApplyServerDiscounts(c.invoice, response.rows).state)
        else c;
      c1.(suppressOfferReapply := false)
  }

  /** `clearCart`: the invoice reset, the offer and the coupon forgotten. */
  function ClearCartStep(c: CartState): CartState
  {
    c.(invoice := ResetStep(c.invoice), autoAppliedOffer := None, appliedCoupon := None)
  }

  /** Whether `addItem` consults the stock oracle: a profile is given, the
      add is not automatic, and some warehouse is known. The source also
      skips the check when the item's `actual_qty` is `null`; the catalog
      item here always carries a quantity, so that case does not arise, and
      the oracle's verdict is a parameter of `AddItem`. */
  predicate StockChecked(item: CatalogItem, autoAdd: bool, profile: Option<Profile>)
  {
    profile.Some? && !autoAdd && (item.warehouse != "" || profile.value.warehouse != "")
  }

  datatype AddOutcome = AddOutcome(cart: CartState, added: bool)

  /** `addItem`; `stockAvailable` is the stock validator's verdict, and a
      refusal is the thrown error. */
  function AddToCartStep(c: CartState, item: CatalogItem, qty: real, autoAdd: bool,
                         profile: Option<Profile>, stockAvailable: bool): (r: AddOutcome)
    ensures !r.added ==> r.cart == c
    ensures r.added ==> r.cart == c.(invoice := AddItemStep(c.invoice, item, qty))
    ensures !r.added <==> StockChecked(item, autoAdd, profile) && !stockAvailable
  {
    if StockChecked(item, autoAdd, profile) && !stockAvailable then AddOutcome(c, false)
    else AddOutcome(c.(invoice := AddItemStep(c.invoice, item, qty)), true)
  }
}
