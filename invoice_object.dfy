// The invoice object of the POS client: the fields useInvoice.js keeps in
// reactive refs, and its mutators, each proved to perform the transition
// InvoiceModel describes.

module Invoice {
  import opened Common
  import opened InvoiceModel

  class Invoice {
    var items: seq<Line>
    var customer: Option<string>
    var payments: seq<Payment>
    var additionalDiscount: real
    var couponCode: Option<string>
    var taxRules: seq<TaxRule>
    var taxInclusive: bool
    var cachedSubtotal: real
    var cachedTotalTax: real
    var cachedTotalDiscount: real
    var cachedTotalPaid: real
    // memo of `calculateTotalTaxRate`, keyed by the rules it was computed for
    var cachedTaxRate: real
    var taxRulesCacheKey: Option<seq<TaxRule>>

    function State(): InvoiceState
      reads this
    {
      InvoiceState(items, customer, payments, additionalDiscount, couponCode, taxRules,
                   taxInclusive, Totals(cachedSubtotal, cachedTotalTax, cachedTotalDiscount, cachedTotalPaid))
    }

    /** The tax-rate memo is only ever filled with the sum for its key. */
    predicate MemoValid()
      reads this
    {
      taxRulesCacheKey.Some? ==> cachedTaxRate == TaxRateSum(taxRulesCacheKey.value)
    }

    constructor()
      ensures State() == InvoiceState([], None, [], 0.0, None, [], false, Totals(0.0, 0.0, 0.0, 0.0))
      ensures Valid(State()) && MemoValid()
    {
      items := [];
      customer := None;
      payments := [];
      additionalDiscount := 0.0;
      couponCode := None;
      taxRules := [];
      taxInclusive := false;
      cachedSubtotal := 0.0;
      cachedTotalTax := 0.0;
      cachedTotalDiscount := 0.0;
      cachedTotalPaid := 0.0;
      cachedTaxRate := 0.0;
      taxRulesCacheKey := None;
    }

    function Subtotal(): real
      reads this
    {
      cachedSubtotal
    }

    /** `canSubmit`, read off the object. */
    function CanSubmitNow(): (r: bool)
      reads this
      ensures r <==> CanSubmit(State())
    {
      |items| > 0 && Remaining(State()) <= 0.01
    }

    /** `calculateTotalTaxRate`: the memo is transparent. */
    method CalculateTotalTaxRate() returns (r: real)
      requires MemoValid()
      modifies this`cachedTaxRate, this`taxRulesCacheKey
      ensures r == TaxRateSum(taxRules)
      ensures MemoValid() && State() == old(State())
    {
      if taxRulesCacheKey == Some(taxRules) && cachedTaxRate != 0.0 {
        return cachedTaxRate;
      }
      var total := 0.0;
      var i := 0;
      while i < |taxRules|
        invariant 0 <= i <= |taxRules|
        invariant total == TaxRateSum(taxRules[..i])
      {
        assert taxRules[..i + 1][..i] == taxRules[..i];
        var t := taxRules[i];
        if t.chargeType == "On Net Total" || t.chargeType == "On Previous Row Total" {
          total := total + t.rate;
        }
        i := i + 1;
      }
      assert taxRules[..i] == taxRules;
      cachedTaxRate := total;
      taxRulesCacheKey := Some(taxRules);
      r := total;
    }

    /** `recalculateItem` on line `i`; the cached totals are untouched. */
    method RecalculateItem(i: nat)
      requires i < |items| && MemoValid()
      modifies this`items, this`cachedTaxRate, this`taxRulesCacheKey
      ensures items == old(items)[i := Recalculate(old(items)[i], TaxRateSum(taxRules), taxInclusive)]
      ensures MemoValid()
    {
      var totalRate := CalculateTotalTaxRate();
      items := items[i := Recalculate(items[i], totalRate, taxInclusive)];
    }

    /** `rebuildIncrementalCache`. */
    method RebuildIncrementalCache()
      modifies this`cachedSubtotal, this`cachedTotalTax, this`cachedTotalDiscount, this`cachedTotalPaid
      ensures State() == old(State()).(cache := Rebuild(items, payments))
    {
      var sub, tax, disc := 0.0, 0.0, 0.0;
      var i := 0;
      while i < |items|
        invariant 0 <= i <= |items|
        invariant sub == Total(items[..i], LineBase)
        invariant tax == Total(items[..i], LineTax)
        invariant disc == Total(items[..i], LineDiscount)
      {
        assert items[..i + 1][..i] == items[..i];
        var l := items[i];
        sub := sub + l.qty * Or(l.priceListRate, l.rate);
        tax := tax + l.taxAmount;
        disc := disc + l.discountAmount;
        i := i + 1;
      }
      assert items[..i] == items;
      var paid := 0.0;
      var k := 0;
      while k < |payments|
        invariant 0 <= k <= |payments|
        invariant paid == PaidTotal(payments[..k])
      {
        assert payments[..k + 1][..k] == payments[..k];
        paid := paid + payments[k].amount;
        k := k + 1;
      }
      assert payments[..k] == payments;
      cachedSubtotal, cachedTotalTax, cachedTotalDiscount, cachedTotalPaid := sub, tax, disc, paid;
    }

    /** Move the cached totals from line `before` to line `after`. */
    method ShiftCache(before: Line, after: Line)
      modifies this`cachedSubtotal, this`cachedTotalTax, this`cachedTotalDiscount
      ensures cachedSubtotal == old(cachedSubtotal) + LineBase(after) - LineBase(before)
      ensures cachedTotalTax == old(cachedTotalTax) + after.taxAmount - before.taxAmount
      ensures cachedTotalDiscount == old(cachedTotalDiscount) + after.discountAmount - before.discountAmount
    {
      cachedSubtotal := cachedSubtotal + LineBase(after) - LineBase(before);
      cachedTotalTax := cachedTotalTax + after.taxAmount - before.taxAmount;
      cachedTotalDiscount := cachedTotalDiscount + after.discountAmount - before.discountAmount;
    }

    /** Edit line `i`, reprice it and move the cache by the delta. */
    method EditLine(i: nat, edited: Line)
      requires i < |items| && MemoValid()
      modifies this
      ensures State() == Touch(old(State()), i, edited) && MemoValid()
    {
      var before := items[i];
      items := items[i := edited];
      RecalculateItem(i);
      ShiftCache(before, items[i]);
    }

    method AddItem(item: CatalogItem, quantity: real)
      requires MemoValid()
      modifies this
      ensures State() == AddItemStep(old(State()), item, quantity) && MemoValid()
    {
      var found := FindLine(items, item.code);
      if found.Some? {
        var i := found.value;
        EditLine(i, items[i].(qty := items[i].qty + quantity));
      } else {
        AppendLine(item, quantity);
      }
    }

    method AppendLine(item: CatalogItem, quantity: real)
      requires MemoValid()
      modifies this
      ensures State() == AppendNew(old(State()), item, quantity) && MemoValid()
    {
      ghost var s := State();
      ghost var after := Recalculate(NewLine(item, quantity), TaxRateSum(s.taxRules), s.taxInclusive);
      items := items + [NewLine(item, quantity)];
      RecalculateItem(|items| - 1);
      assert items == s.items + [after];
      var added := items[|items| - 1];
      cachedSubtotal := cachedSubtotal + LineBase(added);
      cachedTotalTax := cachedTotalTax + added.taxAmount;
      cachedTotalDiscount := cachedTotalDiscount + added.discountAmount;
    }

    method RemoveItem(code: string)
      requires MemoValid()
      modifies this
      ensures State() == RemoveItemStep(old(State()), code) && MemoValid()
    {
      ghost var s := State();
      var found := FindLine(items, code);
      if found.Some? {
        var l := items[found.value];
        cachedSubtotal := cachedSubtotal - LineBase(l);
        cachedTotalTax := cachedTotalTax - l.taxAmount;
        cachedTotalDiscount := cachedTotalDiscount - l.discountAmount;
        items := Without(items, code);
        assert State() == RemoveItemStep(s, code);
      } else {
        items := Without(items, code);
        assert State() == RemoveItemStep(s, code);
      }
    }

    method UpdateItemQuantity(code: string, quantity: Option<real>)
      requires MemoValid()
      modifies this
      ensures State() == UpdateQuantityStep(old(State()), code, quantity) && MemoValid()
    {
      ghost var s := State();
      var found := FindLine(items, code);
      if found.Some? {
        var i := found.value;
        EditLine(i, items[i].(qty := OrNum(quantity, 1.0)));
      }
    }

    method UpdateItemRate(code: string, rate: Option<real>)
      requires MemoValid()
      modifies this
      ensures State() == UpdateRateStep(old(State()), code, rate) && MemoValid()
    {
      ghost var s := State();
      var found := FindLine(items, code);
      if found.Some? {
        var i := found.value;
        EditLine(i, items[i].(rate := OrNum(rate, 0.0)));
      }
    }

    method UpdateItemDiscount(code: string, percentage: Option<real>)
      requires MemoValid()
      modifies this
      ensures State() == UpdateDiscountStep(old(State()), code, percentage) && MemoValid()
    {
      ghost var s := State();
      var found := FindLine(items, code);
      if found.Some? {
        var i := found.value;
        var valid := OrNum(percentage, 0.0);
        if valid < 0.0 { valid := 0.0; }
        if valid > 100.0 { valid := 100.0; }
        EditLine(i, items[i].(discountPercentage := valid, discountAmount := 0.0));
      }
    }

    method AddPayment(p: PaymentInput)
      modifies this
      ensures State() == AddPaymentStep(old(State()), p)
      ensures unchanged(this`cachedTaxRate, this`taxRulesCacheKey)
    {
      ghost var s := State();
      var amount := OrNum(p.amount, 0.0);
      payments := payments + [Payment(p.mode, amount, p.kind)];
      cachedTotalPaid := cachedTotalPaid + amount;
    }

    /** `removePayment`, with the as-written negative-index behaviour
        corrected: an index outside the list changes nothing. */
    method RemovePayment(index: int)
      modifies this
      ensures State() == RemovePaymentStep(old(State()), index)
      ensures unchanged(this`cachedTaxRate, this`taxRulesCacheKey)
    {
      ghost var s := State();
      if 0 <= index < |payments| {
        cachedTotalPaid := cachedTotalPaid - payments[index].amount;
        payments := RemoveAt(payments, index);
      }
    }

    method UpdatePayment(index: int, amount: Option<real>)
      modifies this
      ensures State() == UpdatePaymentStep(old(State()), index, amount)
      ensures unchanged(this`cachedTaxRate, this`taxRulesCacheKey)
    {
      ghost var s := State();
      if 0 <= index < |payments| {
        var oldAmount := payments[index].amount;
        var newAmount := OrNum(amount, 0.0);
        payments := payments[index := payments[index].(amount := newAmount)];
        cachedTotalPaid := cachedTotalPaid + newAmount - oldAmount;
      }
    }

    method ApplyDiscount(d: Option<Discount>)
      modifies this
      ensures State() == ApplyDiscountStep(old(State()), d)
      ensures unchanged(this`cachedTaxRate, this`taxRulesCacheKey)
    {
      if d.Some? {
        var x := d.value;
        couponCode := OrStr(x.code, x.name);
        var amount := DiscountAmount(d, cachedSubtotal);
        if amount > cachedSubtotal { amount := cachedSubtotal; }
        if amount < 0.0 { amount := 0.0; }
        additionalDiscount := amount;
        RebuildIncrementalCache();
      }
    }

    method RemoveDiscount()
      modifies this
      ensures State() == RemoveDiscountStep(old(State()))
      ensures unchanged(this`cachedTaxRate, this`taxRulesCacheKey)
    {
      additionalDiscount := 0.0;
      couponCode := None;
      RebuildIncrementalCache();
    }

    method ResetInvoice()
      modifies this
      ensures State() == ResetStep(old(State())) && Valid(State())
      ensures unchanged(this`cachedTaxRate, this`taxRulesCacheKey)
    {
      items := [];
      customer := None;
      payments := [];
      additionalDiscount := 0.0;
      couponCode := None;
      cachedSubtotal, cachedTotalTax, cachedTotalDiscount, cachedTotalPaid := 0.0, 0.0, 0.0, 0.0;
    }

    /** Reprice every line in order (the `forEach(recalculateItem)`). */
    method RecalculateAllItems()
      requires MemoValid()
      modifies this`items, this`cachedTaxRate, this`taxRulesCacheKey
      ensures items == RecalculateAll(old(items), TaxRateSum(taxRules), taxInclusive)
      ensures MemoValid()
    {
      var i := 0;
      ghost var original := items;
      while i < |items|
        invariant 0 <= i <= |items| == |original| && MemoValid()
        invariant forall j :: 0 <= j < i ==> items[j] == Recalculate(original[j], TaxRateSum(taxRules), taxInclusive)
        invariant forall j :: i <= j < |items| ==> items[j] == original[j]
      {
        RecalculateItem(i);
        i := i + 1;
      }
    }

    method SetTaxInclusive(value: bool)
      requires MemoValid()
      modifies this
      ensures State() == SetTaxInclusiveStep(old(State()), value) && MemoValid()
    {
      taxInclusive := value;
      RecalculateAllItems();
      RebuildIncrementalCache();
    }

    /** `loadTaxRules` with the server answer and the settings flag given. */
    method LoadTaxRules(fetched: Option<seq<TaxRule>>, settingInclusive: Option<bool>) returns (r: seq<TaxRule>)
      requires MemoValid()
      modifies this
      ensures State() == LoadTaxRulesStep(old(State()), fetched, settingInclusive) && MemoValid()
      ensures r == taxRules
    {
      if fetched.None? {
        taxRules := [];
        return [];
      }
      ghost var s := State();
      taxRules := fetched.value;
      LoadIsSetInclusive(s, fetched.value, settingInclusive);
      SetTaxInclusive(Coalesce(settingInclusive, taxInclusive));
      r := taxRules;
    }

    /** `submitInvoice`: `draftName` is the name the draft call returned
        (none: it failed) and `submitted` whether the submit call went
        through. Success resets the invoice. */
    method SubmitInvoice(draftName: Option<string>, submitted: bool) returns (r: Result<real>)
      modifies this
      ensures draftName.None? || draftName.value == "" ==> r.Err? && State() == old(State())
      ensures Truthy(draftName) && !submitted ==> r.Err? && State() == old(State())
      ensures Truthy(draftName) && submitted ==>
        r == Ok(ChangeAmount(old(State()))) && State() == ResetStep(old(State()))
      ensures unchanged(this`cachedTaxRate, this`taxRulesCacheKey)
    {
      if !Truthy(draftName) {
        return Err("Failed to create draft invoice - no invoice name returned");
      }
      var change := ChangeAmount(State());
      if !submitted {
        return Err("Invoice submission failed");
      }
      ResetInvoice();
      r := Ok(change);
    }
  }
}
