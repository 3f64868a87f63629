// Properties of the invoice computation engine: pricing in both tax
// regimes, and the equality of the incrementally maintained totals with a
// rebuild from scratch after every mutator.

module InvoiceLemmas {
  import opened Common
  import opened InvoiceModel

  lemma {:induction false} TotalAppend(s: seq<Line>, x: Line, f: Line -> real)
    ensures Total(s + [x], f) == Total(s, f) + f(x)
  {
    assert (s + [x])[..|s + [x]| - 1] == s;
  }

  lemma {:induction false} TotalUpdate(s: seq<Line>, i: nat, x: Line, f: Line -> real)
    requires i < |s|
    ensures Total(s[i := x], f) == Total(s, f) - f(s[i]) + f(x)
    decreases |s|
  {
    var n := |s|;
    if i == n - 1 {
      assert s[i := x][..n - 1] == s[..n - 1];
    } else {
      assert s[i := x][..n - 1] == s[..n - 1][i := x];
      TotalUpdate(s[..n - 1], i, x, f);
    }
  }

  lemma {:induction false} PaidAppend(p: seq<Payment>, x: Payment)
    ensures PaidTotal(p + [x]) == PaidTotal(p) + x.amount
  {
    assert (p + [x])[..|p + [x]| - 1] == p;
  }

  lemma {:induction false} PaidUpdate(p: seq<Payment>, i: nat, x: Payment)
    requires i < |p|
    ensures PaidTotal(p[i := x]) == PaidTotal(p) - p[i].amount + x.amount
    decreases |p|
  {
    var n := |p|;
    if i == n - 1 {
      assert p[i := x][..n - 1] == p[..n - 1];
    } else {
      assert p[i := x][..n - 1] == p[..n - 1][i := x];
      PaidUpdate(p[..n - 1], i, x);
    }
  }

  lemma {:induction false} PaidConcat(a: seq<Payment>, b: seq<Payment>)
    ensures PaidTotal(a + b) == PaidTotal(a) + PaidTotal(b)
    decreases |b|
  {
    if b == [] {
      assert a + b == a;
    } else {
      var n := |b|;
      assert (a + b)[..|a + b| - 1] == a + b[..n - 1];
      PaidConcat(a, b[..n - 1]);
    }
  }

  lemma {:induction false} PaidRemoveAt(p: seq<Payment>, i: nat)
    requires i < |p|
    ensures PaidTotal(RemoveAt(p, i)) == PaidTotal(p) - p[i].amount
    decreases |p|
  {
    var n := |p|;
    var init := p[..n - 1];
    if i == n - 1 {
      assert RemoveAt(p, i) == init;
    } else {
      assert RemoveAt(p, i) == RemoveAt(init, i) + [p[n - 1]];
      PaidAppend(RemoveAt(init, i), p[n - 1]);
      PaidRemoveAt(init, i);
    }
  }

  lemma {:induction false} WithoutAbsent(s: seq<Line>, code: string)
    requires forall j :: 0 <= j < |s| ==> s[j].code != code
    ensures Without(s, code) == s
  {
    if s != [] {
      WithoutAbsent(s[..|s| - 1], code);
      assert s == s[..|s| - 1] + [s[|s| - 1]];
    }
  }

  lemma {:induction false} WithoutUnique(s: seq<Line>, code: string)
    requires UniqueCodes(s)
    ensures UniqueCodes(Without(s, code))
  {
    if s != [] {
      var init := s[..|s| - 1];
      var last := s[|s| - 1];
      WithoutUnique(init, code);
      var rest := Without(init, code);
      if last.code != code {
        forall j | 0 <= j < |rest|
          ensures rest[j].code != last.code
        {
          assert rest[j] in init;
        }
      }
    }
  }

  /** Removing every line with a code that occurs exactly once lowers each
      sum by that line's share. */
  lemma {:induction false} TotalWithout(s: seq<Line>, i: nat, f: Line -> real)
    requires UniqueCodes(s) && i < |s|
    ensures Total(Without(s, s[i].code), f) == Total(s, f) - f(s[i])
    decreases |s|
  {
    if i == |s| - 1 {
      TotalWithoutLast(s, f);
    } else {
      UniquePrefix(s);
      assert s[..|s| - 1][i] == s[i];
      TotalWithout(s[..|s| - 1], i, f);
      TotalWithoutStep(s, i, f);
    }
  }

  lemma UniquePrefix(s: seq<Line>)
    requires UniqueCodes(s) && s != []
    ensures UniqueCodes(s[..|s| - 1])
  {
  }

  /** Removing the last line's code, which no other line has, drops just
      that line. */
  lemma TotalWithoutLast(s: seq<Line>, f: Line -> real)
    requires UniqueCodes(s) && s != []
    ensures Total(Without(s, s[|s| - 1].code), f) == Total(s, f) - f(s[|s| - 1])
  {
    var init := s[..|s| - 1];
    var code := s[|s| - 1].code;
    assert forall j :: 0 <= j < |init| ==> init[j].code != code;
    WithoutAbsent(init, code);
    WithoutLast(s, code);
  }

  /** A line before the last: the last line survives and adds its share on
      both sides. */
  lemma TotalWithoutStep(s: seq<Line>, i: nat, f: Line -> real)
    requires UniqueCodes(s) && i < |s| - 1
    requires Total(Without(s[..|s| - 1], s[i].code), f) == Total(s[..|s| - 1], f) - f(s[i])
    ensures Total(Without(s, s[i].code), f) == Total(s, f) - f(s[i])
  {
    var last := s[|s| - 1];
    assert last.code != s[i].code;
    WithoutLast(s, s[i].code);
    TotalAppend(Without(s[..|s| - 1], s[i].code), last, f);
  }

  /** `Without` on a non-empty list: the last line stays unless it has
      the code. */
  lemma WithoutLast(s: seq<Line>, code: string)
    requires s != []
    ensures Without(s, code) == Without(s[..|s| - 1], code) + (if s[|s| - 1].code == code then [] else [s[|s| - 1]])
  {
  }

  /** Exclusive regime: tax goes on top of the discounted base. */
  lemma RecalculateExclusive(l: Line, totalRate: real, inclusive: bool)
    requires !InclusiveActive(totalRate, inclusive)
    ensures var r := Recalculate(l, totalRate, inclusive);
      r.amount == LineBase(l) - r.discountAmount &&
      r.taxAmount == r.amount * totalRate / 100.0 &&
      (l.qty > 0.0 ==> r.rate * l.qty == r.amount) &&
      (l.qty <= 0.0 ==> r.rate == ListRate(l))
  {
  }

  /** Inclusive regime: the price already contains the tax, which is
      extracted so that net plus tax is the discounted gross. */
  lemma RecalculateInclusive(l: Line, totalRate: real)
    requires totalRate > 0.0
    ensures var r := Recalculate(l, totalRate, true);
      r.amount + r.taxAmount == LineBase(l) - r.discountAmount &&
      r.amount * (1.0 + totalRate / 100.0) == LineBase(l) - r.discountAmount &&
      (l.qty > 0.0 ==> r.rate * l.qty == LineBase(l) - r.discountAmount)
  {
    var gross := LineBase(l) - SettledDiscount(l);
    var d := 1.0 + totalRate / 100.0;
    assert NetAmount(gross, totalRate, true) == gross / d;
    assert (gross / d) * d == gross;
  }

  /** How the discount is settled: a percentage wins; otherwise a fixed
      amount is kept and the percentage back-computed from it. */
  lemma RecalculateDiscount(l: Line, totalRate: real, inclusive: bool)
    ensures var r := Recalculate(l, totalRate, inclusive);
      (l.discountPercentage > 0.0 ==>
         r.discountPercentage == l.discountPercentage &&
         r.discountAmount == LineBase(l) * l.discountPercentage / 100.0) &&
      (l.discountPercentage <= 0.0 && l.discountAmount > 0.0 ==>
         r.discountAmount == l.discountAmount &&
         (LineBase(l) > 0.0 ==> r.discountPercentage * LineBase(l) == l.discountAmount * 100.0) &&
         (LineBase(l) <= 0.0 ==> r.discountPercentage == 0.0)) &&
      (l.discountPercentage <= 0.0 && l.discountAmount <= 0.0 ==>
         r.discountAmount == 0.0 && r.discountPercentage == l.discountPercentage)
  {
    var base := LineBase(l);
    if l.discountPercentage <= 0.0 && l.discountAmount > 0.0 && base > 0.0 {
      assert (l.discountAmount / base * 100.0) * base == l.discountAmount * 100.0;
    }
  }

  /** With a list price on the line, repricing it again changes nothing:
      the base does not move, and a back-computed percentage reproduces the
      amount it came from. */
  lemma RecalculateIdempotent(l: Line, totalRate: real, inclusive: bool)
    requires l.priceListRate != 0.0
    ensures Recalculate(Recalculate(l, totalRate, inclusive), totalRate, inclusive)
         == Recalculate(l, totalRate, inclusive)
  {
    var r := Recalculate(l, totalRate, inclusive);
    var base := LineBase(l);
    assert ListRate(r) == ListRate(l);
    assert LineBase(r) == base;
    if l.discountPercentage <= 0.0 && l.discountAmount > 0.0 && base > 0.0 {
      var p := l.discountAmount / base * 100.0;
      assert r.discountPercentage == p;
      assert p > 0.0;
      assert base * p / 100.0 == l.discountAmount;
    }
    assert SettledDiscount(r) == SettledDiscount(l);
    assert SettledPercentage(r) == SettledPercentage(l);
  }

  /** The worked example: 2 × 100 at 10% discount and 5% tax. */
  lemma ExclusiveExample()
    ensures var l := Line("A", "A", 2.0, 100.0, 100.0, 10.0, 0.0, 0.0, 0.0, 0.0, "Nos", "Nos", 1.0, "W", []);
      var r := Recalculate(l, 5.0, false);
      r.discountAmount == 20.0 && r.amount == 180.0 && r.taxAmount == 9.0 && r.rate == 90.0
  {
  }

  lemma RecalculateSettles(l: Line, totalRate: real, inclusive: bool)
    requires l.priceListRate != 0.0 && totalRate >= 0.0
    ensures Settled(Recalculate(l, totalRate, inclusive), inclusive)
  {
    var r := Recalculate(l, totalRate, inclusive);
    assert LineBase(r) == LineBase(l);
    if InclusiveActive(totalRate, inclusive) {
      RecalculateInclusive(l, totalRate);
    } else if inclusive {
      var gross := LineBase(l) - SettledDiscount(l);
      assert totalRate == 0.0;
      assert TaxAmount(gross, totalRate, inclusive) == 0.0;
    }
  }

  /** With a valid cache, the submit decision is the one a full re-sum
      would give. */
  lemma CanSubmitFromScratch(s: InvoiceState)
    requires CacheValid(s)
    ensures CanSubmit(s) <==>
      |s.items| > 0 && GrandFromScratch(s) - PaidTotal(s.payments) <= 0.01
  {
  }

  lemma {:induction false} TotalLinear(s: seq<Line>, f: Line -> real, g: Line -> real, h: Line -> real)
    requires forall i :: 0 <= i < |s| ==> h(s[i]) == f(s[i]) + g(s[i])
    ensures Total(s, h) == Total(s, f) + Total(s, g)
  {
    if s != [] {
      TotalLinear(s[..|s| - 1], f, g, h);
    }
  }

  /** When every line is settled, the grand total is the sum of the line
      totals less the invoice-level discount, in either regime. */
  lemma GrandTotalIsLineSum(s: InvoiceState)
    requires CacheValid(s)
    requires forall i :: 0 <= i < |s.items| ==>
      Settled(s.items[i], s.taxInclusive)
    ensures GrandTotal(s) == Total(s.items, LineTotal) - s.additionalDiscount
  {
    var items := s.items;
    var negDisc := (l: Line) => - l.discountAmount;
    var baseTax := (l: Line) => LineBase(l) + l.taxAmount;
    TotalNegate(items, LineDiscount, negDisc);
    TotalLinear(items, LineBase, negDisc, NetOfDiscount);
    if s.taxInclusive {
      TotalLinear(items, LineTotal, (l: Line) => 0.0, NetOfDiscount);
      TotalZero(items, (l: Line) => 0.0);
    } else {
      TotalLinear(items, LineBase, LineTax, baseTax);
      TotalLinear(items, baseTax, negDisc, NetPlusTax);
      TotalLinear(items, LineTotal, (l: Line) => 0.0, NetPlusTax);
      TotalZero(items, (l: Line) => 0.0);
    }
  }

  lemma {:induction false} TotalNegate(s: seq<Line>, f: Line -> real, g: Line -> real)
    requires forall i :: 0 <= i < |s| ==> g(s[i]) == - f(s[i])
    ensures Total(s, g) == - Total(s, f)
  {
    if s != [] {
      TotalNegate(s[..|s| - 1], f, g);
    }
  }

  lemma {:induction false} TotalZero(s: seq<Line>, f: Line -> real)
    requires forall i :: 0 <= i < |s| ==> f(s[i]) == 0.0
    ensures Total(s, f) == 0.0
  {
    if s != [] {
      TotalZero(s[..|s| - 1], f);
    }
  }

  /** The two regimes on one unit at 100 under a 10% rule. */
  lemma ExampleLines()
    ensures Recalculate(Line("A", "A", 1.0, 100.0, 100.0, 0.0, 0.0, 0.0, 100.0, 0.0, "Nos", "Nos", 1.0, "W", []), 10.0, false)
      == Line("A", "A", 1.0, 100.0, 100.0, 0.0, 0.0, 10.0, 100.0, 0.0, "Nos", "Nos", 1.0, "W", [])
    ensures Recalculate(Line("A", "A", 1.0, 100.0, 100.0, 0.0, 0.0, 0.0, 100.0, 0.0, "Nos", "Nos", 1.0, "W", []), 10.0, true)
      == Line("A", "A", 1.0, 100.0, 100.0, 0.0, 0.0, 100.0 / 11.0, 1000.0 / 11.0, 0.0, "Nos", "Nos", 1.0, "W", [])
  {
  }

  /** The totals example on the two recalculated lines of `ExampleLines`:
      110 in the exclusive regime, 100 in the inclusive one. */
  lemma GrandTotalExample()
    ensures var ex := Line("A", "A", 1.0, 100.0, 100.0, 0.0, 0.0, 10.0, 100.0, 0.0, "Nos", "Nos", 1.0, "W", []);
      GrandTotal(InvoiceState([ex], None, [], 0.0, None, [TaxRule("On Net Total", 10.0)], false, Rebuild([ex], []))) == 110.0
    ensures var inc := Line("A", "A", 1.0, 100.0, 100.0, 0.0, 0.0, 100.0 / 11.0, 1000.0 / 11.0, 0.0, "Nos", "Nos", 1.0, "W", []);
      GrandTotal(InvoiceState([inc], None, [], 0.0, None, [TaxRule("On Net Total", 10.0)], true, Rebuild([inc], []))) == 100.0
  {
    RebuildOne(Line("A", "A", 1.0, 100.0, 100.0, 0.0, 0.0, 10.0, 100.0, 0.0, "Nos", "Nos", 1.0, "W", []));
    RebuildOne(Line("A", "A", 1.0, 100.0, 100.0, 0.0, 0.0, 100.0 / 11.0, 1000.0 / 11.0, 0.0, "Nos", "Nos", 1.0, "W", []));
  }

  lemma RebuildOne(l: Line)
    ensures Rebuild([l], []) == Totals(LineBase(l), l.taxAmount, l.discountAmount, 0.0)
  {
    assert [] + [l] == [l];
    TotalAppend([], l, LineBase);
    TotalAppend([], l, LineTax);
    TotalAppend([], l, LineDiscount);
  }

  lemma TouchValid(s: InvoiceState, i: nat, edited: Line)
    requires Valid(s) && i < |s.items| && edited.code == s.items[i].code
    ensures Valid(Touch(s, i, edited))
    ensures Touch(s, i, edited).items[i] == Recalculate(edited, TaxRateSum(s.taxRules), s.taxInclusive)
  {
    var after := Recalculate(edited, TaxRateSum(s.taxRules), s.taxInclusive);
    TotalUpdate(s.items, i, after, LineBase);
    TotalUpdate(s.items, i, after, LineTax);
    TotalUpdate(s.items, i, after, LineDiscount);
    var t := Touch(s, i, edited);
    assert forall a, b :: 0 <= a < b < |t.items| ==> t.items[a].code != t.items[b].code by {
      forall a, b | 0 <= a < b < |t.items|
        ensures t.items[a].code != t.items[b].code
      {
        assert t.items[a].code == s.items[a].code;
        assert t.items[b].code == s.items[b].code;
      }
    }
  }

  lemma AddItemValid(s: InvoiceState, item: CatalogItem, quantity: real)
    requires Valid(s)
    ensures Valid(AddItemStep(s, item, quantity))
    ensures |AddItemStep(s, item, quantity).items| ==
      (if FindLine(s.items, item.code).Some? then |s.items| else |s.items| + 1)
  {
    match FindLine(s.items, item.code)
    case Some(i) =>
      TouchValid(s, i, s.items[i].(qty := s.items[i].qty + quantity));
    case None =>
      var after := Recalculate(NewLine(item, quantity), TaxRateSum(s.taxRules), s.taxInclusive);
      TotalAppend(s.items, after, LineBase);
      TotalAppend(s.items, after, LineTax);
      TotalAppend(s.items, after, LineDiscount);
  }

  /** Adding an item keeps exactly one line per code: it lands on the line
      with its code, merged or new. */
  lemma AddItemMerges(s: InvoiceState, item: CatalogItem, quantity: real)
    requires UniqueCodes(s.items)
    ensures var t := AddItemStep(s, item, quantity);
      exists k :: 0 <= k < |t.items| && t.items[k].code == item.code &&
        forall j :: 0 <= j < |t.items| && j != k ==> t.items[j].code != item.code
  {
    var t := AddItemStep(s, item, quantity);
    match FindLine(s.items, item.code)
    case Some(i) =>
      assert t.items[i].code == item.code;
      assert forall j :: 0 <= j < |t.items| && j != i ==> t.items[j] == s.items[j];
    case None =>
      var k := |s.items|;
      assert t.items[k].code == item.code;
  }

  lemma RemoveItemValid(s: InvoiceState, code: string)
    requires Valid(s)
    ensures Valid(RemoveItemStep(s, code))
    ensures forall l :: l in RemoveItemStep(s, code).items ==> l.code != code
  {
    WithoutUnique(s.items, code);
    var found := FindLine(s.items, code);
    if found.None? {
      WithoutAbsent(s.items, code);
    } else {
      RemovePresentCache(s, found.value);
    }
  }

  lemma RemovePresentCache(s: InvoiceState, i: nat)
    requires Valid(s) && i < |s.items| && FindLine(s.items, s.items[i].code) == Some(i)
    ensures CacheValid(RemoveItemStep(s, s.items[i].code))
  {
    TotalWithout(s.items, i, LineBase);
    TotalWithout(s.items, i, LineTax);
    TotalWithout(s.items, i, LineDiscount);
  }

  lemma UpdateQuantityValid(s: InvoiceState, code: string, q: Option<real>)
    requires Valid(s)
    ensures Valid(UpdateQuantityStep(s, code, q))
  {
    match FindLine(s.items, code)
    case None =>
    case Some(i) => TouchValid(s, i, s.items[i].(qty := OrNum(q, 1.0)));
  }

  /** `updateItemQuantity` never leaves a zero or NaN quantity behind. */
  lemma UpdateQuantityValue(s: InvoiceState, code: string, q: Option<real>)
    requires FindLine(s.items, code).Some?
    ensures var i := FindLine(s.items, code).value;
      var t := UpdateQuantityStep(s, code, q);
      t.items[i].qty != 0.0 &&
      (q.Some? && q.value != 0.0 ==> t.items[i].qty == q.value) &&
      (q.None? || q.value == 0.0 ==> t.items[i].qty == 1.0)
  {
  }

  lemma UpdateRateValid(s: InvoiceState, code: string, r: Option<real>)
    requires Valid(s)
    ensures Valid(UpdateRateStep(s, code, r))
  {
    match FindLine(s.items, code)
    case None =>
    case Some(i) => TouchValid(s, i, s.items[i].(rate := OrNum(r, 0.0)));
  }

  lemma UpdateDiscountValid(s: InvoiceState, code: string, p: Option<real>)
    requires Valid(s)
    ensures Valid(UpdateDiscountStep(s, code, p))
  {
    match FindLine(s.items, code)
    case None =>
    case Some(i) =>
      TouchValid(s, i, s.items[i].(discountPercentage := ClampPercentage(p), discountAmount := 0.0));
  }

  /** `updateItemDiscount` leaves the percentage in [0, 100] and recomputes
      the amount from it (no fixed amount survives). */
  lemma UpdateDiscountValue(s: InvoiceState, code: string, p: Option<real>)
    requires FindLine(s.items, code).Some?
    ensures var i := FindLine(s.items, code).value;
      var l := UpdateDiscountStep(s, code, p).items[i];
      0.0 <= l.discountPercentage <= 100.0 &&
      l.discountAmount == LineBase(s.items[i]) * ClampPercentage(p) / 100.0
  {
    var i := FindLine(s.items, code).value;
    var edited := s.items[i].(discountPercentage := ClampPercentage(p), discountAmount := 0.0);
    assert LineBase(edited) == LineBase(s.items[i]);
    RecalculateDiscount(edited, TaxRateSum(s.taxRules), s.taxInclusive);
  }

  lemma AddPaymentValid(s: InvoiceState, p: PaymentInput)
    requires Valid(s)
    ensures Valid(AddPaymentStep(s, p))
  {
    var pay := Payment(p.mode, OrNum(p.amount, 0.0), p.kind);
    var t := AddPaymentStep(s, p);
    assert t.items == s.items && t.payments == s.payments + [pay];
    PaidAppend(s.payments, pay);
    RebuildPaid(s.items, s.payments, t.payments);
    assert t.cache == s.cache.(paid := PaidTotal(t.payments));
  }

  /** The item sums of a rebuild do not depend on the payments. */
  lemma RebuildPaid(items: seq<Line>, p1: seq<Payment>, p2: seq<Payment>)
    ensures Rebuild(items, p2) == Rebuild(items, p1).(paid := PaidTotal(p2))
  {
  }

  lemma RemovePaymentValid(s: InvoiceState, index: int)
    requires Valid(s)
    ensures Valid(RemovePaymentStep(s, index))
  {
    if 0 <= index < |s.payments| {
      PaidRemoveAt(s.payments, index);
    }
  }

  /** As written, `removePayment(-1)` on a valid invoice removes the last
      payment but leaves its amount in the cached total paid. */
  lemma RemovePaymentDrift(s: InvoiceState)
    requires CacheValid(s) && |s.payments| > 0 && s.payments[|s.payments| - 1].amount != 0.0
    ensures var t := RemovePaymentAsWritten(s, -1);
      |t.payments| == |s.payments| - 1 && t.cache.paid == s.cache.paid &&
      t.cache.paid == PaidTotal(t.payments) + s.payments[|s.payments| - 1].amount &&
      !CacheValid(t)
  {
    PaidRemoveAt(s.payments, |s.payments| - 1);
  }

  lemma UpdatePaymentValid(s: InvoiceState, index: int, amount: Option<real>)
    requires Valid(s)
    ensures Valid(UpdatePaymentStep(s, index, amount))
  {
    if 0 <= index < |s.payments| {
      PaidUpdate(s.payments, index, s.payments[index].(amount := OrNum(amount, 0.0)));
    }
  }

  /** `applyDiscount` keeps the invoice-level discount within [0, subtotal]
      and records the code (or else the name) of the discount. */
  lemma ApplyDiscountBounds(s: InvoiceState, d: Discount)
    requires Valid(s) && s.cache.subtotal >= 0.0
    ensures var t := ApplyDiscountStep(s, Some(d));
      Valid(t) && 0.0 <= t.additionalDiscount <= t.cache.subtotal &&
      t.couponCode == (if Truthy(d.code) then d.code else d.name)
  {
  }

  lemma RemoveDiscountClears(s: InvoiceState)
    requires UniqueCodes(s.items)
    ensures var t := RemoveDiscountStep(s);
      Valid(t) && t.additionalDiscount == 0.0 && t.couponCode.None? &&
      TotalDiscount(t) == Total(s.items, LineDiscount)
  {
  }

  lemma RecalculateAllUnique(items: seq<Line>, totalRate: real, inclusive: bool)
    requires UniqueCodes(items)
    ensures UniqueCodes(RecalculateAll(items, totalRate, inclusive))
  {
  }

  lemma SetTaxInclusiveValid(s: InvoiceState, value: bool)
    requires UniqueCodes(s.items)
    ensures Valid(SetTaxInclusiveStep(s, value))
  {
    RecalculateAllUnique(s.items, TaxRateSum(s.taxRules), value);
  }

  lemma LoadTaxRulesValid(s: InvoiceState, fetched: Option<seq<TaxRule>>, settingInclusive: Option<bool>)
    requires Valid(s)
    ensures Valid(LoadTaxRulesStep(s, fetched, settingInclusive))
  {
    if fetched.Some? {
      RecalculateAllUnique(s.items, TaxRateSum(fetched.value), Coalesce(settingInclusive, s.taxInclusive));
    }
  }

  lemma ApplyValid(s: InvoiceState, op: Op)
    requires Valid(s)
    ensures Valid(Apply(s, op))
  {
    match op
    case AddItemOp(item, q) => AddItemValid(s, item, q);
    case RemoveItemOp(c) => RemoveItemValid(s, c);
    case UpdateQuantityOp(c, q) => UpdateQuantityValid(s, c, q);
    case UpdateRateOp(c, r) => UpdateRateValid(s, c, r);
    case UpdateDiscountOp(c, p) => UpdateDiscountValid(s, c, p);
    case AddPaymentOp(p) => AddPaymentValid(s, p);
    case RemovePaymentOp(i) => RemovePaymentValid(s, i);
    case UpdatePaymentOp(i, a) => UpdatePaymentValid(s, i, a);
    case ApplyDiscountOp(d) =>
    case RemoveDiscountOp =>
    case SetTaxInclusiveOp(v) => SetTaxInclusiveValid(s, v);
    case LoadTaxRulesOp(f, i) => LoadTaxRulesValid(s, f, i);
    case ResetOp =>
  }

  /** The central property: after any sequence of the invoice's own
      mutators, the cached subtotal, tax, discount and paid totals equal a
      rebuild from scratch, and item codes stay unique. */
  lemma {:induction false} RunValid(s: InvoiceState, ops: seq<Op>)
    requires Valid(s)
    ensures Valid(Run(s, ops))
    ensures Run(s, ops).cache == Rebuild(Run(s, ops).items, Run(s, ops).payments)
    decreases |ops|
  {
    if ops != [] {
      ApplyValid(s, ops[0]);
      RunValid(Apply(s, ops[0]), ops[1..]);
    }
  }
}
