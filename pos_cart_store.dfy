// The cart store object (posCart.js): it owns an invoice and the offer
// flags, and each action is proved to perform the transition PosCartModel
// describes. Server answers and the stock validator's verdict are
// parameters.

module PosCart {
  import opened Common
  import opened InvoiceModel
  import opened Invoice
  import opened PosCartModel

  /** The `discountMap` loop over the server's rows. */
  method BuildDiscountMap(rows: seq<ServerRow>) returns (m: map<string, ServerRow>)
    ensures m == DiscountMap(rows)
  {
    m := map[];
    var j := 0;
    while j < |rows|
      invariant 0 <= j <= |rows|
      invariant m == DiscountMap(rows[..j])
    {
      assert rows[..j + 1][..j] == rows[..j];
      if Truthy(rows[j].code) {
        m := m[rows[j].code.value := rows[j]];
      }
      j := j + 1;
    }
    assert rows[..j] == rows;
  }

  class Cart {
    const inv: Invoice
    var posProfile: Option<string>
    var suppressOfferReapply: bool
    var autoAppliedOffer: Option<AppliedOffer>
    var appliedCoupon: Option<Discount>

    function State(): CartState
      reads this, inv
    {
      CartState(inv.State(), posProfile, suppressOfferReapply, autoAppliedOffer, appliedCoupon)
    }

    predicate Ready()
      reads this, inv
    {
      inv.MemoValid()
    }

    constructor(profile: Option<string>)
      ensures fresh(inv) && Ready()
      ensures State() == CartState(InvoiceState([], None, [], 0.0, None, [], false, Totals(0.0, 0.0, 0.0, 0.0)),
                                   profile, false, None, None)
    {
      inv := new Invoice();
      posProfile := profile;
      suppressOfferReapply := false;
      autoAppliedOffer := None;
      appliedCoupon := None;
    }

    /** One turn of the `forEach`: the server discount written onto line
        `i`, then `updateItemQuantity` with the line's own quantity. */
    method ServerTurn(i: nat, m: map<string, ServerRow>) returns (discounted: bool)
      requires Ready() && i < |inv.items|
      modifies inv
      ensures Ready() && inv.State() == ServerStep(old(inv.State()), i, m)
      ensures discounted == Discounted(m, old(inv.items[i]))
    {
      var l := inv.items[i];
      var w := l.(discountPercentage := MatchedPercentage(m, l.code), discountAmount := MatchedAmount(m, l.code));
      inv.items := inv.items[i := w];
      discounted := w.discountPercentage != 0.0 || w.discountAmount != 0.0;
      inv.UpdateItemQuantity(w.code, Some(w.qty));
    }

    /** The `forEach` over the cart lines. */
    method ServerLoop(m: map<string, ServerRow>) returns (hasDiscounts: bool)
      requires Ready()
      modifies inv
      ensures Ready()
      ensures inv.State() == ServerPass(old(inv.State()), m, |old(inv.items)|)
      ensures hasDiscounts == DiscountedWithin(m, old(inv.items), |old(inv.items)|)
    {
      ghost var s0 := inv.State();
      hasDiscounts := false;
      var i := 0;
      while i < |inv.items|
        invariant 0 <= i <= |inv.items| == |s0.items|
        invariant inv.State() == ServerPass(s0, m, i) && inv.MemoValid()
        invariant hasDiscounts == DiscountedWithin(m, s0.items, i)
      {
        assert inv.items[i].code == s0.items[i].code;
        var d := ServerTurn(i, m);
        hasDiscounts := hasDiscounts || d;
        i := i + 1;
      }
    }

    /** `applyServerDiscounts`, with the cache rebuilt after the loop. */
    method ApplyServerDiscounts(rows: Option<seq<ServerRow>>) returns (hasDiscounts: bool)
      requires Ready()
      modifies inv
      ensures Ready()
      ensures inv.State() == PosCartModel.ApplyServerDiscounts(old(inv.State()), rows).state
      ensures hasDiscounts == PosCartModel.ApplyServerDiscounts(old(inv.State()), rows).hasDiscounts
    {
      if rows.None? {
        return false;
      }
      var m := BuildDiscountMap(rows.value);
      hasDiscounts := ServerLoop(m);
      inv.RebuildIncrementalCache();
    }

    /** `applyOffer`; `response` is what the offer endpoint does when it is
      called. A `None` result is the bare `return`. */
    method ApplyOffer(offer: Option<Offer>, response: OfferResponse) returns (r: Option<bool>)
      requires Ready()
      modifies this, inv
      ensures Ready()
      ensures var o := ApplyOfferStep(old(State()), offer, response);
        State() == o.cart && r == o.result
    {
      if offer.None? {
        return None;
      }
      if !Truthy(posProfile) || |inv.items| == 0 {
        return None;
      }
      if response.Threw? {
        return Some(false);
      }
      suppressOfferReapply := true;
      var hasDiscounts := ApplyServerDiscounts(response.rows);
      if hasDiscounts {
        var x := offer.value;
        autoAppliedOffer := Some(AppliedOffer(if Truthy(x.title) then x.title.value else x.name, x.name,
                                              "manual", Coalesce(response.appliedRules, [x.name])));
        return Some(true);
      }
      return Some(false);
    }

    method RemoveOffer()
      requires Ready()
      modifies this, inv
      ensures Ready() && State() == RemoveOfferStep(old(State()))
    {
      suppressOfferReapply := true;
      autoAppliedOffer := None;
      inv.RemoveDiscount();
    }

    method RemoveDiscountFromCart()
      requires Ready()
      modifies this, inv
      ensures Ready() && State() == RemoveDiscountFromCartStep(old(State()))
    {
      suppressOfferReapply := true;
      autoAppliedOffer := None;
      inv.RemoveDiscount();
      appliedCoupon := None;
    }

    method ApplyDiscountToCart(d: Discount)
      requires Ready()
      modifies this, inv
      ensures Ready() && State() == ApplyDiscountToCartStep(old(State()), d)
    {
      inv.ApplyDiscount(Some(d));
      appliedCoupon := Some(d);
    }

    /** `reapplyOffer`; `response` is what the endpoint does if called. */
    method ReapplyOffer(response: OfferResponse)
      requires Ready()
      modifies this, inv
      ensures Ready() && State() == ReapplyOfferStep(old(State()), response)
    {
      if |inv.items| == 0 && autoAppliedOffer.Some? {
        autoAppliedOffer := None;
        return;
      }
      if |inv.items| > 0 && autoAppliedOffer.Some? && !suppressOfferReapply {
        if response.Replied? {
          suppressOfferReapply := true;
          var _ := ApplyServerDiscounts(response.rows);
        }
      }
      if suppressOfferReapply {
        suppressOfferReapply := false;
      }
    }

    /** `changeItemUOM`, with the cache moved by the line's delta; `details`
        is `None` when the lookup throws. */
    method ChangeItemUom(code: string, newUom: string, details: Option<ItemDetails>)
      requires Ready()
      modifies inv
      ensures Ready() && inv.State() == ChangeUom(old(inv.State()), code, newUom, details)
    {
      var found := FindLine(inv.items, code);
      if found.None? || details.None? {
        return;
      }
      var i := found.value;
      inv.EditLine(i, UomEdited(inv.items[i], newUom, details.value));
    }

    method ClearCart()
      requires Ready()
      modifies this, inv
      ensures Ready() && State() == ClearCartStep(old(State()))
    {
      inv.ResetInvoice();
      autoAppliedOffer := None;
      appliedCoupon := None;
    }

    method SetCustomer(customer: Option<string>)
      modifies inv
      ensures inv.State() == old(inv.State()).(customer := customer)
      ensures unchanged(inv`cachedTaxRate, inv`taxRulesCacheKey)
    {
      inv.customer := customer;
    }

    /** `addItem` behind the stock check; `stockAvailable` is the stock
        validator's verdict and `false` stands for the thrown error. */
    method AddItem(item: CatalogItem, qty: real, autoAdd: bool, profile: Option<Profile>, stockAvailable: bool)
      returns (added: bool)
      requires Ready()
      modifies inv
      ensures Ready()
      ensures var o := AddToCartStep(old(State()), item, qty, autoAdd, profile, stockAvailable);
        State() == o.cart && added == o.added
    {
      if StockChecked(item, autoAdd, profile) && !stockAvailable {
        return false;
      }
      inv.AddItem(item, qty);
      return true;
    }
  }
}
