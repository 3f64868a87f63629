// What the cart store's passes do to the invoice: the server-discount pass
// reprices every line with its matched discount, the corrected pass and the
// corrected unit switch keep the cache equal to a rebuild, and the two
// passes as written do not.

module PosCartLemmas {
  import opened Common
  import opened InvoiceModel
  import opened InvoiceLemmas
  import opened PosCartModel

  /** The map holds exactly the codes some row carries, each bound to the
      last row carrying it. */
  lemma {:induction false} DiscountMapLast(rows: seq<ServerRow>, code: string)
    ensures code in DiscountMap(rows) <==> code != "" && LastRow(rows, code).Some?
    ensures code in DiscountMap(rows) ==> DiscountMap(rows)[code] == rows[LastRow(rows, code).value]
  {
    if rows != [] {
      DiscountMapLast(rows[..|rows| - 1], code);
    }
  }

  lemma SameCodesUnique(a: seq<Line>, b: seq<Line>)
    requires SameCodes(a, b) && UniqueCodes(b)
    ensures UniqueCodes(a)
  {
    forall i, j | 0 <= i < j < |a|
      ensures a[i].code != a[j].code
    {
      assert a[i].code == b[i].code && a[j].code == b[j].code;
    }
  }

  /** The flag is raised exactly when some line among the first `n` has a
      non-zero matched discount. */
  lemma {:induction false} DiscountedWithinExists(m: map<string, ServerRow>, items: seq<Line>, n: nat)
    requires n <= |items|
    ensures DiscountedWithin(m, items, n) <==> exists k :: 0 <= k < n && Discounted(m, items[k])
  {
    if n > 0 {
      DiscountedWithinExists(m, items, n - 1);
    }
  }

  /** With unique codes, `find` by a line's code finds that line. */
  lemma FindUnique(s: seq<Line>, k: nat)
    requires UniqueCodes(s) && k < |s|
    ensures FindLine(s, s[k].code) == Some(k)
  {
  }

  /** After the first `n` turns, the first `n` lines are repriced with their
      server discount and the rest are untouched. */
  lemma {:induction false} ServerPassLines(s: InvoiceState, m: map<string, ServerRow>, n: nat)
    requires UniqueCodes(s.items) && n <= |s.items|
    ensures forall k :: 0 <= k < n ==>
      ServerPass(s, m, n).items[k] == Repriced(s.items[k], m, TaxRateSum(s.taxRules), s.taxInclusive)
    ensures forall k :: n <= k < |s.items| ==> ServerPass(s, m, n).items[k] == s.items[k]
    decreases n
  {
    if n > 0 {
      ServerPassLines(s, m, n - 1);
      var t := ServerPass(s, m, n - 1);
      var i := n - 1;
      var w := WithServerDiscount(t.items[i], m);
      var t1 := t.(items := t.items[i := w]);
      assert SameCodes(t1.items, s.items);
      SameCodesUnique(t1.items, s.items);
      FindUnique(t1.items, i);
    }
  }

  /** The pass (either version: they differ only in the cache) reprices
      every line with its matched discount, keeps each positive quantity,
      and reports whether some line was discounted. */
  lemma ServerDiscountLines(s: InvoiceState, rows: seq<ServerRow>)
    requires UniqueCodes(s.items)
    ensures var o := ApplyServerDiscounts(s, Some(rows));
      var m := DiscountMap(rows);
      |o.state.items| == |s.items| &&
      (forall k :: 0 <= k < |s.items| ==>
        o.state.items[k] == Repriced(s.items[k], m, TaxRateSum(s.taxRules), s.taxInclusive)) &&
      (o.hasDiscounts <==> exists k :: 0 <= k < |s.items| && Discounted(m, s.items[k]))
    ensures ApplyServerDiscountsAsWritten(s, Some(rows)).state.items == ApplyServerDiscounts(s, Some(rows)).state.items
  {
    ServerPassLines(s, DiscountMap(rows), |s.items|);
    DiscountedWithinExists(DiscountMap(rows), s.items, |s.items|);
  }

  /** A line's quantity survives the pass unless it was 0 (then it is 1),
      and an unmatched line ends with no discount. */
  lemma RepricedLine(l: Line, m: map<string, ServerRow>, totalRate: real, inclusive: bool)
    requires totalRate >= 0.0
    ensures l.qty != 0.0 ==> Repriced(l, m, totalRate, inclusive).qty == l.qty
    ensures l.qty == 0.0 ==> Repriced(l, m, totalRate, inclusive).qty == 1.0
    ensures l.code !in m ==> Repriced(l, m, totalRate, inclusive).discountAmount == 0.0
  {
    var w := WithServerDiscount(l, m);
    RecalculateDiscount(w.(qty := OrNum(Some(w.qty), 1.0)), totalRate, inclusive);
  }

  /** The corrected pass keeps the invoice valid. */
  lemma ApplyServerDiscountsValid(s: InvoiceState, rows: Option<seq<ServerRow>>)
    requires Valid(s)
    ensures Valid(ApplyServerDiscounts(s, rows).state)
  {
    if rows.Some? {
      var t := ServerPass(s, DiscountMap(rows.value), |s.items|);
      SameCodesUnique(t.items, s.items);
    }
  }

  /** The discount the pass as written fails to take out of the cache:
      over the first `n` lines, each line's old discount less the amount
      the server sent for it. */
  function DriftSum(items: seq<Line>, m: map<string, ServerRow>, n: nat): real
    requires n <= |items|
  {
    if n == 0 then 0.0
    else DriftSum(items, m, n - 1) + items[n - 1].discountAmount - MatchedAmount(m, items[n - 1].code)
  }

  /** What `Touch` does to the lines and the cache, for any edit. */
  lemma TouchShape(s: InvoiceState, i: nat, edited: Line)
    requires i < |s.items|
    ensures var r := Touch(s, i, edited);
      r.items == s.items[i := r.items[i]] && r.payments == s.payments &&
      r.cache.subtotal == s.cache.subtotal + LineBase(r.items[i]) - LineBase(s.items[i]) &&
      r.cache.tax == s.cache.tax + LineTax(r.items[i]) - LineTax(s.items[i]) &&
      r.cache.discount == s.cache.discount + LineDiscount(r.items[i]) - LineDiscount(s.items[i]) &&
      r.cache.paid == s.cache.paid
  {
  }

  /** Writing the server's discount in keeps the line's base and tax. */
  lemma WithServerDiscountKeeps(l: Line, m: map<string, ServerRow>)
    ensures var w := WithServerDiscount(l, m);
      w.code == l.code && LineBase(w) == LineBase(l) && LineTax(w) == LineTax(l) &&
      LineDiscount(w) == MatchedAmount(m, l.code)
  {
  }

  /** One turn as written: line `i` is replaced and the cache moves by its
      delta, except that the discount is taken back at the server's amount. */
  lemma ServerStepCache(t: InvoiceState, i: nat, m: map<string, ServerRow>)
    requires UniqueCodes(t.items) && i < |t.items|
    ensures var r := ServerStep(t, i, m);
      r.items == t.items[i := r.items[i]] && r.payments == t.payments &&
      r.cache.subtotal == t.cache.subtotal + LineBase(r.items[i]) - LineBase(t.items[i]) &&
      r.cache.tax == t.cache.tax + LineTax(r.items[i]) - LineTax(t.items[i]) &&
      r.cache.discount == t.cache.discount + LineDiscount(r.items[i]) - MatchedAmount(m, t.items[i].code) &&
      r.cache.paid == t.cache.paid
  {
    var l := t.items[i];
    var w := WithServerDiscount(l, m);
    var t1 := t.(items := t.items[i := w]);
    assert SameCodes(t1.items, t.items);
    SameCodesUnique(t1.items, t.items);
    FindUnique(t1.items, i);
    var edited := w.(qty := OrNum(Some(w.qty), 1.0));
    assert ServerStep(t, i, m) == Touch(t1, i, edited);
    WithServerDiscountKeeps(l, m);
    TouchShape(t1, i, edited);
  }

  /** The bookkeeping of one turn, over abstract states. */
  lemma DriftStep(t: InvoiceState, r: InvoiceState, i: nat, drift: real, matched: real)
    requires i < |t.items| && |r.items| == |t.items| && r.items == t.items[i := r.items[i]] && r.payments == t.payments
    requires t.cache.subtotal == Total(t.items, LineBase) && t.cache.tax == Total(t.items, LineTax)
    requires t.cache.paid == PaidTotal(t.payments)
    requires t.cache.discount == Total(t.items, LineDiscount) + drift
    requires r.cache.subtotal == t.cache.subtotal + LineBase(r.items[i]) - LineBase(t.items[i])
    requires r.cache.tax == t.cache.tax + LineTax(r.items[i]) - LineTax(t.items[i])
    requires r.cache.discount == t.cache.discount + LineDiscount(r.items[i]) - matched
    requires r.cache.paid == t.cache.paid
    ensures r.cache.subtotal == Total(r.items, LineBase) && r.cache.tax == Total(r.items, LineTax)
    ensures r.cache.paid == PaidTotal(r.payments)
    ensures r.cache.discount == Total(r.items, LineDiscount) + drift + t.items[i].discountAmount - matched
  {
    TotalUpdate(t.items, i, r.items[i], LineBase);
    TotalUpdate(t.items, i, r.items[i], LineTax);
    TotalUpdate(t.items, i, r.items[i], LineDiscount);
  }

  /** The pass as written keeps subtotal, tax and paid right but leaves the
      cached discount above the rebuilt one by `DriftSum`: it subtracts the
      overwritten server amount where the old discount was cached. */
  lemma {:induction false} ServerPassDrift(s: InvoiceState, m: map<string, ServerRow>, n: nat)
    requires CacheValid(s) && UniqueCodes(s.items) && n <= |s.items|
    ensures var t := ServerPass(s, m, n);
      t.cache.subtotal == Total(t.items, LineBase) && t.cache.tax == Total(t.items, LineTax) &&
      t.cache.paid == PaidTotal(t.payments) &&
      t.cache.discount == Total(t.items, LineDiscount) + DriftSum(s.items, m, n)
    decreases n
  {
    if n > 0 {
      ServerPassDrift(s, m, n - 1);
      ServerPassAhead(s, m, n - 1);
      var t := ServerPass(s, m, n - 1);
      SameCodesUnique(t.items, s.items);
      ServerStepCache(t, n - 1, m);
      DriftTurn(s.items, m, n, t, ServerStep(t, n - 1, m));
    }
  }

  /** The line a turn is about to visit is still the original one. */
  lemma ServerPassAhead(s: InvoiceState, m: map<string, ServerRow>, n: nat)
    requires UniqueCodes(s.items) && n < |s.items|
    ensures ServerPass(s, m, n).items[n] == s.items[n]
  {
    ServerPassLines(s, m, n);
  }

  /** One turn of the drift, over abstract states. */
  lemma DriftTurn(items: seq<Line>, m: map<string, ServerRow>, n: nat, t: InvoiceState, r: InvoiceState)
    requires 0 < n <= |items| && |t.items| == |items| && t.items[n - 1] == items[n - 1]
    requires t.cache.subtotal == Total(t.items, LineBase) && t.cache.tax == Total(t.items, LineTax)
    requires t.cache.paid == PaidTotal(t.payments)
    requires t.cache.discount == Total(t.items, LineDiscount) + DriftSum(items, m, n - 1)
    requires |r.items| == |t.items| && r.items == t.items[n - 1 := r.items[n - 1]] && r.payments == t.payments
    requires r.cache.subtotal == t.cache.subtotal + LineBase(r.items[n - 1]) - LineBase(t.items[n - 1])
    requires r.cache.tax == t.cache.tax + LineTax(r.items[n - 1]) - LineTax(t.items[n - 1])
    requires r.cache.discount == t.cache.discount + LineDiscount(r.items[n - 1]) - MatchedAmount(m, t.items[n - 1].code)
    requires r.cache.paid == t.cache.paid
    ensures r.cache.subtotal == Total(r.items, LineBase) && r.cache.tax == Total(r.items, LineTax)
    ensures r.cache.paid == PaidTotal(r.payments)
    ensures r.cache.discount == Total(r.items, LineDiscount) + DriftSum(items, m, n)
  {
    DriftStep(t, r, n - 1, DriftSum(items, m, n - 1), MatchedAmount(m, items[n - 1].code));
  }

  /** Hence on a one-line cart whose line's discount differs from what the
      server sends for it, the pass as written breaks the cache. */
  lemma ServerDiscountDrift(s: InvoiceState, rows: seq<ServerRow>)
    requires Valid(s) && |s.items| == 1
    requires s.items[0].discountAmount != MatchedAmount(DiscountMap(rows), s.items[0].code)
    ensures !CacheValid(ApplyServerDiscountsAsWritten(s, Some(rows)).state)
  {
    ServerPassDrift(s, DiscountMap(rows), 1);
  }

  /** The corrected unit switch keeps the invoice valid and leaves the same
      lines as the switch as written. */
  lemma ChangeUomValid(s: InvoiceState, code: string, newUom: string, details: Option<ItemDetails>)
    requires Valid(s)
    ensures Valid(ChangeUom(s, code, newUom, details))
    ensures ChangeUom(s, code, newUom, details).items == ChangeUomAsWritten(s, code, newUom, details).items
  {
    match FindLine(s.items, code)
    case None =>
    case Some(i) =>
      if details.Some? {
        TouchValid(s, i, UomEdited(s.items[i], newUom, details.value));
      }
  }

  /** The unit switch as written leaves the cache where it was while the
      lines move by the switched line's delta, so the cache is right only
      when repricing left that line's base, tax and discount unchanged. */
  lemma ChangeUomDrift(s: InvoiceState, code: string, newUom: string, d: ItemDetails)
    requires CacheValid(s) && FindLine(s.items, code).Some?
    ensures var i := FindLine(s.items, code).value;
      var t := ChangeUomAsWritten(s, code, newUom, Some(d));
      t.cache == s.cache &&
      Total(t.items, LineBase) == s.cache.subtotal + LineBase(t.items[i]) - LineBase(s.items[i]) &&
      Total(t.items, LineTax) == s.cache.tax + LineTax(t.items[i]) - LineTax(s.items[i]) &&
      Total(t.items, LineDiscount) == s.cache.discount + LineDiscount(t.items[i]) - LineDiscount(s.items[i]) &&
      (LineBase(t.items[i]) != LineBase(s.items[i]) ==> !CacheValid(t))
  {
    var i := FindLine(s.items, code).value;
    var after := Recalculate(UomEdited(s.items[i], newUom, d), TaxRateSum(s.taxRules), s.taxInclusive);
    TotalUpdate(s.items, i, after, LineBase);
    TotalUpdate(s.items, i, after, LineTax);
    TotalUpdate(s.items, i, after, LineDiscount);
  }

  /** The rows sent to the offer endpoint price the cart at the same list
      rates the subtotal counts. */
  lemma {:induction false} OfferRowsBase(items: seq<Line>)
    ensures RowsBase(OfferRows(items)) == Total(items, LineBase)
  {
    if items != [] {
      var init := items[..|items| - 1];
      OfferRowsBase(init);
      assert OfferRows(items)[..|items| - 1] == OfferRows(init);
    }
  }

  lemma OfferRequestSubtotal(s: InvoiceState, posProfile: Option<string>, profile: Option<Profile>)
    requires CacheValid(s)
    ensures RowsBase(BuildInvoiceDataForOffers(s, posProfile, profile).items) == s.cache.subtotal
  {
    OfferRowsBase(s.items);
  }

  /** `applyOffer`: the guards return before any server call; a reply
      sets the suppress flag; the offer is recorded iff some line got a
      discount; the invoice stays valid. */
  lemma ApplyOfferFacts(c: CartState, offer: Option<Offer>, response: OfferResponse, other: OfferResponse)
    requires Valid(c.invoice)
    ensures var r := ApplyOfferStep(c, offer, response);
      Valid(r.cart.invoice) &&
      ((offer.None? || !Truthy(c.posProfile) || |c.invoice.items| == 0) ==>
         r == OfferOutcome(c, None) && r == ApplyOfferStep(c, offer, other)) &&
      (r.result == Some(true) ==> r.cart.autoAppliedOffer.Some? && r.cart.autoAppliedOffer.value.code == offer.value.name) &&
      (r.result == Some(false) ==> r.cart.autoAppliedOffer == c.autoAppliedOffer) &&
      (response.Replied? && r.result.Some? ==> r.cart.suppressOfferReapply)
  {
    if response.Replied? {
      ApplyServerDiscountsValid(c.invoice, response.rows);
    }
  }

  /** `reapplyOffer` clears the offer on an empty cart, consults the
      response only when it calls the server, keeps the invoice valid and
      ends with the flag down on every path but the empty-cart return. */
  lemma ReapplyOfferFacts(c: CartState, response: OfferResponse, other: OfferResponse)
    requires Valid(c.invoice)
    ensures var r := ReapplyOfferStep(c, response);
      Valid(r.invoice) &&
      (|c.invoice.items| == 0 ==> r.autoAppliedOffer.None? && r.invoice == c.invoice) &&
      (!ReapplyCalls(c) ==> r == ReapplyOfferStep(c, other)) &&
      (!(|c.invoice.items| == 0 && c.autoAppliedOffer.Some?) ==> !r.suppressOfferReapply) &&
      (|c.invoice.items| == 0 && c.autoAppliedOffer.Some? ==> r.suppressOfferReapply == c.suppressOfferReapply)
  {
    if ReapplyCalls(c) && response.Replied? {
      ApplyServerDiscountsValid(c.invoice, response.rows);
    }
  }

  /** `removeOffer` and `removeDiscountFromCart` raise the flag, drop the
      offer, zero the additional discount and keep the invoice valid. */
  lemma RemoveOfferFacts(c: CartState)
    requires Valid(c.invoice)
    ensures var r := RemoveOfferStep(c);
      r.suppressOfferReapply && r.autoAppliedOffer.None? && r.invoice.additionalDiscount == 0.0 &&
      r.invoice.couponCode.None? && Valid(r.invoice) && r.invoice.items == c.invoice.items
    ensures RemoveDiscountFromCartStep(c) == RemoveOfferStep(c).(appliedCoupon := None)
  {
  }
}
