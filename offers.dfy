// Offers and coupons as the POS sees them (pos_next/api/offers.py): the
// offers built from Pricing Rules, the coupon check at checkout, the usage
// counter as invoices are submitted and cancelled, and coupon creation.

module OffersModel {
  import opened Common
  import opened CouponModel

  /** A Pricing Rule row. Rules from a Promotional Scheme carry the
      scheme's name; the discount and limit columns are read only for
      standalone rules. Numbers that are NULL read as 0. */
  datatype PricingRule = PricingRule(
    name: string,
    title: string,
    applyOn: string,
    promotionalScheme: string,
    promotionalSchemeId: string,
    couponCodeBased: bool,
    priceOrProductDiscount: string,
    rateOrDiscount: Option<string>,
    rate: real,
    discountAmount: real,
    discountPercentage: real,
    minQty: real,
    maxQty: real,
    minAmt: real,
    maxAmt: real,
    validFrom: Option<int>,
    validUpto: Option<int>)

  /** A price or product discount slab of a Promotional Scheme. */
  datatype Slab = Slab(
    parent: string,
    minQty: real,
    maxQty: real,
    minAmount: real,
    maxAmount: real,
    rateOrDiscount: Option<string>,
    rate: real,
    discountAmount: real,
    discountPercentage: real,
    applyMultiple: bool)

  /** A child row naming an item, item group or brand of a rule or scheme. */
  datatype LinkRow = LinkRow(parent: string, value: string)

  /** An offer as sent to the POS. */
  datatype Offer = Offer(
    name: string,
    title: string,
    description: string,
    applyOn: string,
    kind: string,
    auto: bool,
    couponBased: bool,
    minQty: real,
    maxQty: real,
    minAmt: real,
    maxAmt: real,
    discountType: Option<string>,
    rate: real,
    discountAmount: real,
    discountPercentage: real,
    validFrom: Option<int>,
    validUpto: Option<int>,
    source: string,
    promotionalScheme: Option<string>,
    promotionalSchemeId: Option<string>,
    eligibleItems: seq<string>,
    eligibleItemGroups: seq<string>,
    eligibleBrands: seq<string>)

  // ----- the lookup tables built in loops -----

  /** The first slab of each scheme, in row order. */
  function FirstSlabs(slabs: seq<Slab>): map<string, Slab>
  {
    if slabs == [] then map[]
    else
      var m := FirstSlabs(slabs[..|slabs| - 1]);
      var s := slabs[|slabs| - 1];
      if s.parent in m then m else m[s.parent := s]
  }

  /** The slab table has a scheme exactly when some slab names it, and then
      holds the earliest such slab. */
  lemma {:induction false} FirstSlabsFacts(slabs: seq<Slab>, p: string)
    ensures p in FirstSlabs(slabs) <==> exists i :: 0 <= i < |slabs| && slabs[i].parent == p
    ensures p in FirstSlabs(slabs) ==>
      exists i :: 0 <= i < |slabs| && slabs[i] == FirstSlabs(slabs)[p] && slabs[i].parent == p &&
        forall j :: 0 <= j < i ==> slabs[j].parent != p
  {
    if slabs != [] {
      var init := slabs[..|slabs| - 1];
      FirstSlabsFacts(init, p);
      var s := slabs[|slabs| - 1];
      assert forall i :: 0 <= i < |init| ==> init[i] == slabs[i];
      if p in FirstSlabs(init) {
        var i :| 0 <= i < |init| && init[i] == FirstSlabs(init)[p] && init[i].parent == p &&
          forall j :: 0 <= j < i ==> init[j].parent != p;
        assert slabs[i] == FirstSlabs(slabs)[p];
      } else if s.parent == p {
        assert slabs[|slabs| - 1] == FirstSlabs(slabs)[p];
      }
    }
  }

  /** The values of the rows of parent `p`, in row order. */
  function ValuesOf(rows: seq<LinkRow>, p: string): (vs: seq<string>)
    ensures |vs| <= |rows|
  {
    if rows == [] then []
    else ValuesOf(rows[..|rows| - 1], p) + (if rows[|rows| - 1].parent == p then [rows[|rows| - 1].value] else [])
  }

  /** `setdefault(parent, []).append(value)` over all rows. */
  function Grouped(rows: seq<LinkRow>): map<string, seq<string>>
  {
    if rows == [] then map[]
    else
      var m := Grouped(rows[..|rows| - 1]);
      var r := rows[|rows| - 1];
      m[r.parent := (if r.parent in m then m[r.parent] else []) + [r.value]]
  }

  /** The grouped table has a parent exactly when some row names it, and
      then lists that parent's values in row order. */
  lemma {:induction false} GroupedFacts(rows: seq<LinkRow>, p: string)
    ensures p in Grouped(rows) <==> exists i :: 0 <= i < |rows| && rows[i].parent == p
    ensures p in Grouped(rows) ==> Grouped(rows)[p] == ValuesOf(rows, p) && ValuesOf(rows, p) != []
    ensures p !in Grouped(rows) ==> ValuesOf(rows, p) == []
  {
    if rows != [] {
      var init := rows[..|rows| - 1];
      GroupedFacts(init, p);
      assert forall i :: 0 <= i < |init| ==> init[i] == rows[i];
      if rows[|rows| - 1].parent == p {
        assert rows[|rows| - 1].parent == p;
      }
    }
  }

  /** `m.get(key, [])`. */
  function GetList(m: map<string, seq<string>>, key: string): seq<string>
  {
    if key in m then m[key] else []
  }

  /** The tables `_get_pricing_rules` loads once for all rules. */
  datatype SchemeTables = SchemeTables(
    priceSlabs: map<string, Slab>,
    productSlabs: map<string, Slab>,
    items: map<string, seq<string>>,
    itemGroups: map<string, seq<string>>,
    brands: map<string, seq<string>>)

  /** Only the list named by `apply_on` is filled. */
  function Eligibility(applyOn: string, key: string, t: SchemeTables): (seq<string>, seq<string>, seq<string>)
  {
    if applyOn == "Item Code" then (GetList(t.items, key), [], [])
    else if applyOn == "Item Group" then ([], GetList(t.itemGroups, key), [])
    else if applyOn == "Brand" then ([], [], GetList(t.brands, key))
    else ([], [], [])
  }

  lemma EligibilityFacts(applyOn: string, key: string, t: SchemeTables)
    ensures var (items, groups, brands) := Eligibility(applyOn, key, t);
      (applyOn != "Item Code" ==> items == []) &&
      (applyOn != "Item Group" ==> groups == []) &&
      (applyOn != "Brand" ==> brands == []) &&
      (applyOn == "Item Code" ==> items == GetList(t.items, key)) &&
      (applyOn == "Item Group" ==> groups == GetList(t.itemGroups, key)) &&
      (applyOn == "Brand" ==> brands == GetList(t.brands, key))
  {
  }

  /** `a or b`. */
  function OrText(a: string, b: string): string
  {
    if a != "" then a else b
  }

  /** The slab a scheme rule uses: the first price or product slab of its scheme. */
  function SlabFor(rule: PricingRule, t: SchemeTables): Option<Slab>
  {
    var slabs := if rule.priceOrProductDiscount == "Price" then t.priceSlabs else t.productSlabs;
    if rule.promotionalScheme in slabs then Some(slabs[rule.promotionalScheme]) else None
  }

  /** The offer of a scheme rule with its slab. */
  function SchemeOffer(rule: PricingRule, slab: Slab, t: SchemeTables): Offer
  {
    var price := rule.priceOrProductDiscount == "Price";
    var (items, groups, brands) := Eligibility(rule.applyOn, rule.promotionalScheme, t);
    Offer(
      rule.name,
      OrText(rule.title, OrText(rule.promotionalScheme, rule.name)),
      OrText(rule.title, rule.promotionalScheme),
      rule.applyOn,
      if price then "Item Price" else "Give Product",
      !rule.couponCodeBased && !slab.applyMultiple,
      rule.couponCodeBased,
      slab.minQty, slab.maxQty, slab.minAmount, slab.maxAmount,
      if price then slab.rateOrDiscount else None,
      if price then slab.rate else 0.0,
      if price then slab.discountAmount else 0.0,
      if price then slab.discountPercentage else 0.0,
      rule.validFrom, rule.validUpto,
      "Promotional Scheme",
      Some(rule.promotionalScheme), Some(rule.promotionalSchemeId),
      items, groups, brands)
  }

  /** The offer loop of `_get_pricing_rules`: rules without a slab are
      skipped. */
  function SchemeOffers(rules: seq<PricingRule>, t: SchemeTables): (offers: seq<Offer>)
    ensures |offers| <= |rules|
  {
    if rules == [] then []
    else
      var rule := rules[|rules| - 1];
      SchemeOffers(rules[..|rules| - 1], t) +
        (match SlabFor(rule, t) case Some(slab) => [SchemeOffer(rule, slab, t)] case None => [])
  }

  /** The rules that have a slab. */
  function RulesWithSlab(rules: seq<PricingRule>, t: SchemeTables): seq<PricingRule>
  {
    Filter(rules, (r: PricingRule) => SlabFor(r, t).Some?)
  }

  /** There is one offer per rule with a slab, in rule order, built from
      that rule and the first slab of its scheme. */
  lemma {:induction false} SchemeOffersFacts(rules: seq<PricingRule>, t: SchemeTables)
    ensures var kept := RulesWithSlab(rules, t);
      |SchemeOffers(rules, t)| == |kept| &&
      forall k :: 0 <= k < |kept| ==>
        SlabFor(kept[k], t).Some? && SchemeOffers(rules, t)[k] == SchemeOffer(kept[k], SlabFor(kept[k], t).value, t)
  {
    var p := (r: PricingRule) => SlabFor(r, t).Some?;
    if rules != [] {
      var init := rules[..|rules| - 1];
      SchemeOffersFacts(init, t);
      var kept0 := RulesWithSlab(init, t);
      assert RulesWithSlab(rules, t) == kept0 + (if p(rules[|rules| - 1]) then [rules[|rules| - 1]] else []);
      FilterMembers(rules, p);
    }
  }

  /** Every scheme offer is auto exactly when its rule is not coupon based
      and its slab does not allow multiple pricing rules. */
  lemma SchemeOfferFacts(rule: PricingRule, slab: Slab, t: SchemeTables)
    ensures var o := SchemeOffer(rule, slab, t);
      (o.auto <==> !rule.couponCodeBased && !slab.applyMultiple) &&
      o.couponBased == rule.couponCodeBased &&
      (o.kind == "Item Price" <==> rule.priceOrProductDiscount == "Price") &&
      (rule.priceOrProductDiscount != "Price" ==>
        o.discountType.None? && o.rate == 0.0 && o.discountAmount == 0.0 && o.discountPercentage == 0.0) &&
      o.minQty == slab.minQty && o.maxQty == slab.maxQty && o.minAmt == slab.minAmount && o.maxAmt == slab.maxAmount &&
      (o.title == "" <==> rule.title == "" && rule.promotionalScheme == "" && rule.name == "") &&
      (rule.title != "" ==> o.title == o.description == rule.title) &&
      (o.eligibleItems, o.eligibleItemGroups, o.eligibleBrands) == Eligibility(rule.applyOn, rule.promotionalScheme, t)
  {
  }

  /** The offer of a standalone rule. */
  function StandaloneOffer(rule: PricingRule, t: SchemeTables): Offer
  {
    var (items, groups, brands) := Eligibility(rule.applyOn, rule.name, t);
    Offer(
      rule.name,
      OrText(rule.title, rule.name),
      OrText(rule.title, "Pricing Rule: " + rule.name),
      rule.applyOn,
      "Item Price",
      !rule.couponCodeBased,
      rule.couponCodeBased,
      rule.minQty, rule.maxQty, rule.minAmt, rule.maxAmt,
      rule.rateOrDiscount, rule.rate, rule.discountAmount, rule.discountPercentage,
      rule.validFrom, rule.validUpto,
      "Pricing Rule",
      None, None,
      items, groups, brands)
  }

  /** The offer loop of `_get_standalone_pricing_rules`. */
  function StandaloneOffers(rules: seq<PricingRule>, t: SchemeTables): (offers: seq<Offer>)
    ensures |offers| == |rules|
  {
    if rules == [] then [] else StandaloneOffers(rules[..|rules| - 1], t) + [StandaloneOffer(rules[|rules| - 1], t)]
  }

  /** One offer per standalone rule, in order; it is auto exactly when the
      rule is not coupon based, and its description is never empty. */
  lemma {:induction false} StandaloneOffersFacts(rules: seq<PricingRule>, t: SchemeTables)
    ensures forall k :: 0 <= k < |rules| ==> StandaloneOffers(rules, t)[k] == StandaloneOffer(rules[k], t)
    ensures forall k :: 0 <= k < |rules| ==>
      var o := StandaloneOffers(rules, t)[k];
      (o.auto <==> !rules[k].couponCodeBased) && o.description != "" && o.source == "Pricing Rule" &&
      (o.eligibleItems, o.eligibleItemGroups, o.eligibleBrands) == Eligibility(rules[k].applyOn, rules[k].name, t)
  {
    if rules != [] {
      StandaloneOffersFacts(rules[..|rules| - 1], t);
      forall k | 0 <= k < |rules|
        ensures StandaloneOffer(rules[k], t).description != ""
      {
        var r := rules[k];
        assert |"Pricing Rule: " + r.name| > 0;
      }
    }
  }

  /** `get_offers`: the scheme offers, then the standalone ones. */
  function GetOffers(schemeRules: seq<PricingRule>, schemeTables: SchemeTables,
                     standaloneRules: seq<PricingRule>, standaloneTables: SchemeTables): (offers: seq<Offer>)
    ensures |offers| == |SchemeOffers(schemeRules, schemeTables)| + |standaloneRules|
    ensures offers[..|SchemeOffers(schemeRules, schemeTables)|] == SchemeOffers(schemeRules, schemeTables)
    ensures offers[|SchemeOffers(schemeRules, schemeTables)|..] == StandaloneOffers(standaloneRules, standaloneTables)
  {
    SchemeOffers(schemeRules, schemeTables) + StandaloneOffers(standaloneRules, standaloneTables)
  }

  /** `get_offers` lists one offer per scheme rule with a slab, in rule
      order and marked as coming from a Promotional Scheme, then one per
      standalone rule, in order and marked as coming from a Pricing Rule;
      an offer is auto only when its rule is not coupon based. */
  lemma GetOffersFacts(schemeRules: seq<PricingRule>, schemeTables: SchemeTables,
                       standaloneRules: seq<PricingRule>, standaloneTables: SchemeTables)
    ensures var offers := GetOffers(schemeRules, schemeTables, standaloneRules, standaloneTables);
      var kept := RulesWithSlab(schemeRules, schemeTables);
      |offers| == |kept| + |standaloneRules| &&
      (forall k :: 0 <= k < |kept| ==>
        offers[k].name == kept[k].name && offers[k].source == "Promotional Scheme" &&
        (offers[k].auto ==> !kept[k].couponCodeBased)) &&
      (forall k :: 0 <= k < |standaloneRules| ==>
        offers[|kept| + k].name == standaloneRules[k].name && offers[|kept| + k].source == "Pricing Rule" &&
        (offers[|kept| + k].auto <==> !standaloneRules[k].couponCodeBased))
  {
    var offers := GetOffers(schemeRules, schemeTables, standaloneRules, standaloneTables);
    var kept := RulesWithSlab(schemeRules, schemeTables);
    SchemeOffersFacts(schemeRules, schemeTables);
    StandaloneOffersFacts(standaloneRules, standaloneTables);
    var n := |SchemeOffers(schemeRules, schemeTables)|;
    forall k | 0 <= k < |kept|
      ensures offers[k].name == kept[k].name && offers[k].source == "Promotional Scheme" &&
        (offers[k].auto ==> !kept[k].couponCodeBased)
    {
      assert offers[k] == offers[..n][k];
      SchemeOfferFacts(kept[k], SlabFor(kept[k], schemeTables).value, schemeTables);
    }
    forall k | 0 <= k < |standaloneRules|
      ensures offers[n + k] == StandaloneOffers(standaloneRules, standaloneTables)[k]
    {
      assert offers[n + k] == offers[n..][k];
    }
  }

  // ----- validate_coupon -----

  /** A POS Offer document. */
  datatype PosOffer = PosOffer(disable: bool, couponBased: bool, company: string)

  datatype CouponValidation =
    | Invalid(message: string)
    | Valid(coupon: Coupon, offer: PosOffer)
    | OfferMissing   // the coupon's POS Offer does not exist: `get_doc` throws

  /** The database state the coupon endpoints read. */
  datatype CouponDb = CouponDb(tableExists: bool, coupons: map<string, Coupon>, offers: map<string, PosOffer>)

  /** `validate_coupon(code, customer, company)` on day `today`. */
  function ValidateCoupon(db: CouponDb, code: string, customer: string, company: string, today: int): CouponValidation
  {
    var key := ToUpper(code);
    if !db.tableExists then Invalid("Coupon system not installed")
    else if key !in db.coupons then Invalid("Invalid coupon code")
    else
      var c := db.coupons[key];
      if c.validFrom.Some? && c.validFrom.value > today then Invalid("Coupon not yet valid")
      else if c.validUpto.Some? && c.validUpto.value < today then Invalid("Coupon expired")
      else if Exhausted(c) then Invalid("Coupon usage limit reached")
      else if customer != "" && c.couponType == GiftCard && customer != c.customer then Invalid("Coupon not valid for this customer")
      else if company != "" && c.company != company then Invalid("Coupon not valid for this company")
      else if c.posOffer !in db.offers then OfferMissing
      else if db.offers[c.posOffer].disable then Invalid("Offer no longer active")
      else Valid(c, db.offers[c.posOffer])
  }

  /** The coupon's own conditions, checked before its offer is read. */
  predicate CouponUsable(c: Coupon, customer: string, company: string, today: int)
  {
    (c.validFrom.Some? ==> c.validFrom.value <= today) &&
    (c.validUpto.Some? ==> today <= c.validUpto.value) &&
    !Exhausted(c) &&
    (customer != "" && c.couponType == GiftCard ==> customer == c.customer) &&
    (company != "" ==> c.company == company)
  }

  /** The coupon is valid exactly when the table exists, the upper-cased
      code is stored, the coupon is usable and its offer exists and is
      enabled; the offer is read only for a usable coupon. */
  lemma ValidateCouponFacts(db: CouponDb, code: string, customer: string, company: string, today: int)
    ensures var r := ValidateCoupon(db, code, customer, company, today);
      var key := ToUpper(code);
      r.Valid? <==>
        db.tableExists && key in db.coupons && CouponUsable(db.coupons[key], customer, company, today) &&
        db.coupons[key].posOffer in db.offers && !db.offers[db.coupons[key].posOffer].disable
    ensures var r := ValidateCoupon(db, code, customer, company, today);
      var key := ToUpper(code);
      r.Valid? ==> r.coupon == db.coupons[key] && r.offer == db.offers[db.coupons[key].posOffer]
    ensures var r := ValidateCoupon(db, code, customer, company, today);
      var key := ToUpper(code);
      r.OfferMissing? <==>
        db.tableExists && key in db.coupons && CouponUsable(db.coupons[key], customer, company, today) &&
        db.coupons[key].posOffer !in db.offers
  {
  }

  /** The checks run in a fixed order: an expired coupon is reported as
      expired whatever else is wrong with it, once it has started. */
  lemma ValidateCouponOrder(db: CouponDb, code: string, customer: string, company: string, today: int)
    requires db.tableExists && ToUpper(code) in db.coupons
    ensures var c := db.coupons[ToUpper(code)];
      c.validFrom.Some? && c.validFrom.value > today ==>
      ValidateCoupon(db, code, customer, company, today) == Invalid("Coupon not yet valid")
    ensures var c := db.coupons[ToUpper(code)];
      (c.validFrom.None? || c.validFrom.value <= today) && c.validUpto.Some? && c.validUpto.value < today ==>
      ValidateCoupon(db, code, customer, company, today) == Invalid("Coupon expired")
  {
  }

  // ----- usage counters -----

  /** `apply_coupon_to_invoice(invoice, code)`: the coupon table after the
      coupon is used once, or the message thrown. `save` runs the coupon's
      validation. */
  function ApplyCouponToInvoice(db: CouponDb, canWrite: bool, code: string): Result<map<string, Coupon>>
  {
    var key := ToUpper(code);
    if !db.tableExists then Err("Coupon system not available")
    else if !canWrite then Err("You don't have permission to apply coupons")
    else if key !in db.coupons then Err("Invalid coupon code")
    else
      var c := db.coupons[key];
      if c.maximumUse != 0 && c.used >= c.maximumUse then Err("Coupon usage limit exceeded")
      else match Validate(c.(used := c.used + 1))
        case Err(m) => Err(m)
        case Ok(saved) => Ok(db.coupons[key := saved])
  }

  /** Applying succeeds only below the cap, and then the coupon's counter
      rises by exactly one and no other coupon changes. */
  lemma ApplyCouponToInvoiceFacts(db: CouponDb, canWrite: bool, code: string)
    ensures var key := ToUpper(code);
      var r := ApplyCouponToInvoice(db, canWrite, code);
      r.Ok? ==>
        db.tableExists && canWrite && key in db.coupons &&
        (db.coupons[key].maximumUse == 0 || db.coupons[key].used < db.coupons[key].maximumUse) &&
        key in r.value && r.value[key].used == db.coupons[key].used + 1 &&
        r.value.Keys == db.coupons.Keys &&
        (forall k :: k in db.coupons && k != key ==> r.value[k] == db.coupons[k])
    ensures var key := ToUpper(code);
      db.tableExists && canWrite && key in db.coupons && db.coupons[key].maximumUse != 0 &&
      db.coupons[key].used >= db.coupons[key].maximumUse ==>
      ApplyCouponToInvoice(db, canWrite, code) == Err("Coupon usage limit exceeded")
    ensures var key := ToUpper(code);
      db.tableExists && canWrite && key in db.coupons && WellFormed(db.coupons[key]) &&
      (db.coupons[key].maximumUse == 0 || db.coupons[key].used < db.coupons[key].maximumUse) ==>
      ApplyCouponToInvoice(db, canWrite, code) == Ok(Incremented(db.coupons, code))
  {
    var key := ToUpper(code);
    if db.tableExists && canWrite && key in db.coupons {
      ValidateFacts(db.coupons[key].(used := db.coupons[key].used + 1));
    }
  }

  datatype CancelOutcome =
    | Ignored                                // no coupon table, or no such coupon: nothing is returned
    | Cancelled(coupons: map<string, Coupon>) // the success response
    | Refused(message: string)               // thrown

  /** `cancel_coupon_usage(code)`. */
  function CancelCouponUsage(db: CouponDb, canWrite: bool, code: string): CancelOutcome
  {
    var key := ToUpper(code);
    if !db.tableExists then Ignored
    else if !canWrite then Refused("You don't have permission to cancel coupons")
    else if key !in db.coupons then Ignored
    else
      var c := db.coupons[key];
      if c.used > 0 then
        match Validate(c.(used := c.used - 1))
        case Err(m) => Refused(m)
        case Ok(saved) => Cancelled(db.coupons[key := saved])
      else Cancelled(db.coupons)
  }

  /** Cancelling lowers a positive counter by exactly one and leaves a zero
      counter alone; a well-formed coupon's cancellation undoes its
      application. */
  lemma CancelCouponUsageFacts(db: CouponDb, canWrite: bool, code: string)
    ensures var key := ToUpper(code);
      var r := CancelCouponUsage(db, canWrite, code);
      r.Cancelled? ==>
        key in db.coupons && key in r.coupons && r.coupons.Keys == db.coupons.Keys &&
        (db.coupons[key].used > 0 ==> r.coupons[key].used == db.coupons[key].used - 1) &&
        (db.coupons[key].used <= 0 ==> r.coupons == db.coupons) &&
        (forall k :: k in db.coupons && k != key ==> r.coupons[k] == db.coupons[k])
    ensures var key := ToUpper(code);
      db.tableExists && canWrite && key in db.coupons && WellFormed(db.coupons[key]) ==>
      CancelCouponUsage(db, canWrite, code) == Cancelled(Decremented(db.coupons, code))
  {
    var key := ToUpper(code);
    if db.tableExists && canWrite && key in db.coupons && db.coupons[key].used > 0 {
      ValidateFacts(db.coupons[key].(used := db.coupons[key].used - 1));
    }
  }

  /** Cancelling after applying restores the table of a well-formed
      coupon that was below its cap. */
  lemma ApplyThenCancel(db: CouponDb, canWrite: bool, code: string)
    requires db.tableExists && canWrite && ToUpper(code) in db.coupons
    requires WellFormed(db.coupons[ToUpper(code)]) && db.coupons[ToUpper(code)].used >= 0
    requires db.coupons[ToUpper(code)].maximumUse == 0 ||
      db.coupons[ToUpper(code)].used < db.coupons[ToUpper(code)].maximumUse
    ensures ApplyCouponToInvoice(db, canWrite, code).Ok?
    ensures CancelCouponUsage(db.(coupons := ApplyCouponToInvoice(db, canWrite, code).value), canWrite, code)
      == Cancelled(db.coupons)
  {
    var key := ToUpper(code);
    ApplyCouponToInvoiceFacts(db, canWrite, code);
    var applied := Incremented(db.coupons, code);
    UsageFacts(db.coupons, code, key);
    assert applied[key] == db.coupons[key].(used := db.coupons[key].used + 1);
    CancelCouponUsageFacts(db.(coupons := applied), canWrite, code);
  }

  // ----- creating coupons -----

  /** `create_gift_card(offer, customer)`: `blank` is a new POS Coupon with
      the doctype's defaults, `hash1` names the card and `hash2` is the hash
      its code is derived from. */
  function CreateGiftCard(db: CouponDb, canCreate: bool, posOffer: string, customer: string,
                          blank: Coupon, hash1: string, hash2: string): Result<Coupon>
  {
    if !db.tableExists then Err("Coupon system not available")
    else if !canCreate then Err("You don't have permission to create gift cards")
    else if posOffer !in db.offers then Err("POS Offer not found")
    else
      var c := blank.(couponName := ToUpper(Take(hash1, 10)), couponType := GiftCard, posOffer := posOffer,
                      company := db.offers[posOffer].company, customer := customer, maximumUse := 1);
      Insert(c, hash2)
  }

  /** A created gift card is a Gift Card for one use by the given customer,
      for the offer's company; its code is derived from the hash unless the
      defaults give one. */
  lemma CreateGiftCardFacts(db: CouponDb, canCreate: bool, posOffer: string, customer: string,
                            blank: Coupon, hash1: string, hash2: string)
    ensures var r := CreateGiftCard(db, canCreate, posOffer, customer, blank, hash1, hash2);
      r.Ok? ==>
        db.tableExists && canCreate && posOffer in db.offers &&
        r.value.couponType == GiftCard && r.value.maximumUse == 1 && r.value.customer == customer &&
        customer != "" && r.value.posOffer == posOffer && r.value.company == db.offers[posOffer].company &&
        r.value.couponName == Strip(ToUpper(Take(hash1, 10))) &&
        (blank.couponCode == "" ==> r.value.couponCode == ToUpper(Take(hash2, 10)))
    ensures customer == "" ==> CreateGiftCard(db, canCreate, posOffer, customer, blank, hash1, hash2).Err?
  {
    if db.tableExists && canCreate && posOffer in db.offers {
      var c := blank.(couponName := ToUpper(Take(hash1, 10)), couponType := GiftCard, posOffer := posOffer,
                      company := db.offers[posOffer].company, customer := customer, maximumUse := 1);
      AutonameFacts(c, hash2);
      InsertFacts(c, hash2);
    }
  }

  /** `create_promotional_coupon(offer, name, maximum_use, valid_from,
      valid_upto)`; unset arguments are 0 or `None`. */
  function CreatePromotionalCoupon(db: CouponDb, canCreate: bool, posOffer: string, couponName: string,
                                   maximumUse: int, validFrom: Option<int>, validUpto: Option<int>,
                                   blank: Coupon, hash: string): Result<Coupon>
  {
    if !db.tableExists then Err("Coupon system not available")
    else if !canCreate then Err("You don't have permission to create coupons")
    else if posOffer !in db.offers then Err("POS Offer not found")
    else if !db.offers[posOffer].couponBased then Err("POS Offer must be coupon-based")
    else Insert(PromotionalDraft(blank, posOffer, db.offers[posOffer].company, couponName, maximumUse, validFrom, validUpto), hash)
  }

  /** The new promotional coupon before `insert`: only the arguments that
      were given override the defaults. */
  function PromotionalDraft(blank: Coupon, posOffer: string, company: string, couponName: string,
                            maximumUse: int, validFrom: Option<int>, validUpto: Option<int>): (c: Coupon)
    ensures c.couponName == couponName && c.couponType == Promotional && c.posOffer == posOffer && c.company == company
    ensures c.maximumUse == (if maximumUse != 0 then maximumUse else blank.maximumUse)
    ensures c.validFrom == (if validFrom.Some? then validFrom else blank.validFrom)
    ensures c.validUpto == (if validUpto.Some? then validUpto else blank.validUpto)
    ensures c.couponCode == blank.couponCode
  {
    var c0 := blank.(couponName := couponName, couponType := Promotional, posOffer := posOffer, company := company);
    var c1 := if maximumUse != 0 then c0.(maximumUse := maximumUse) else c0;
    var c2 := if validFrom.Some? then c1.(validFrom := validFrom) else c1;
    if validUpto.Some? then c2.(validUpto := validUpto) else c2
  }

  /** A promotional coupon is created only for an existing coupon-based
      offer; it is Promotional, for that offer and its company, and takes
      the arguments that were given. */
  lemma CreatePromotionalCouponFacts(db: CouponDb, canCreate: bool, posOffer: string, couponName: string,
                                     maximumUse: int, validFrom: Option<int>, validUpto: Option<int>,
                                     blank: Coupon, hash: string)
    ensures var r := CreatePromotionalCoupon(db, canCreate, posOffer, couponName, maximumUse, validFrom, validUpto, blank, hash);
      r.Ok? ==>
        db.tableExists && canCreate && posOffer in db.offers && db.offers[posOffer].couponBased &&
        r.value.couponType == Promotional && r.value.posOffer == posOffer &&
        r.value.company == db.offers[posOffer].company && r.value.couponName == Strip(couponName) &&
        (maximumUse != 0 ==> r.value.maximumUse == maximumUse) &&
        (validFrom.Some? ==> r.value.validFrom == validFrom) &&
        (validUpto.Some? ==> r.value.validUpto == validUpto) &&
        (blank.couponCode == "" ==> r.value.couponCode == PromotionalCode(Strip(couponName)))
    ensures posOffer in db.offers && !db.offers[posOffer].couponBased ==>
      CreatePromotionalCoupon(db, canCreate, posOffer, couponName, maximumUse, validFrom, validUpto, blank, hash).Err?
  {
    if db.tableExists && canCreate && posOffer in db.offers && db.offers[posOffer].couponBased {
      var c := PromotionalDraft(blank, posOffer, db.offers[posOffer].company, couponName, maximumUse, validFrom, validUpto);
      AutonameFacts(c, hash);
      InsertFacts(c, hash);
    }
  }
}

module Offers {
  import opened Common
  import opened CouponModel
  import opened OffersModel

  /** The slab loop of `_get_pricing_rules`. */
  method BuildSlabMap(slabs: seq<Slab>) returns (m: map<string, Slab>)
    ensures m == FirstSlabs(slabs)
  {
    m := map[];
    var i := 0;
    while i < |slabs|
      invariant 0 <= i <= |slabs|
      invariant m == FirstSlabs(slabs[..i])
    {
      assert slabs[..i + 1][..i] == slabs[..i];
      if slabs[i].parent !in m {
        m := m[slabs[i].parent := slabs[i]];
      }
      i := i + 1;
    }
    assert slabs[..i] == slabs;
  }

  /** The `setdefault(...).append(...)` loops. */
  method GroupRows(rows: seq<LinkRow>) returns (m: map<string, seq<string>>)
    ensures m == Grouped(rows)
  {
    m := map[];
    var i := 0;
    while i < |rows|
      invariant 0 <= i <= |rows|
      invariant m == Grouped(rows[..i])
    {
      assert rows[..i + 1][..i] == rows[..i];
      var r := rows[i];
      var current := if r.parent in m then m[r.parent] else [];
      m := m[r.parent := current + [r.value]];
      i := i + 1;
    }
    assert rows[..i] == rows;
  }

  /** `_get_pricing_rules` once the rows are loaded. */
  method BuildSchemeOffers(rules: seq<PricingRule>, priceSlabRows: seq<Slab>, productSlabRows: seq<Slab>,
                           itemRows: seq<LinkRow>, groupRows: seq<LinkRow>, brandRows: seq<LinkRow>)
    returns (offers: seq<Offer>)
    ensures offers == SchemeOffers(rules, SchemeTables(FirstSlabs(priceSlabRows), FirstSlabs(productSlabRows),
      Grouped(itemRows), Grouped(groupRows), Grouped(brandRows)))
  {
    var priceSlabs := BuildSlabMap(priceSlabRows);
    var productSlabs := BuildSlabMap(productSlabRows);
    var items := GroupRows(itemRows);
    var groups := GroupRows(groupRows);
    var brands := GroupRows(brandRows);
    offers := OffersFromTables(rules, SchemeTables(priceSlabs, productSlabs, items, groups, brands));
  }

  /** The offer loop of `_get_pricing_rules`. */
  method OffersFromTables(rules: seq<PricingRule>, t: SchemeTables) returns (offers: seq<Offer>)
    ensures offers == SchemeOffers(rules, t)
  {
    offers := [];
    var i := 0;
    while i < |rules|
      invariant 0 <= i <= |rules|
      invariant offers == SchemeOffers(rules[..i], t)
    {
      assert rules[..i + 1][..i] == rules[..i];
      var slab := SlabFor(rules[i], t);
      if slab.Some? {
        offers := offers + [SchemeOffer(rules[i], slab.value, t)];
      }
      i := i + 1;
    }
    assert rules[..i] == rules;
  }

  /** `_get_standalone_pricing_rules` once the rows are loaded. */
  method BuildStandaloneOffers(rules: seq<PricingRule>, itemRows: seq<LinkRow>, groupRows: seq<LinkRow>,
                               brandRows: seq<LinkRow>)
    returns (offers: seq<Offer>)
    ensures offers == StandaloneOffers(rules, SchemeTables(map[], map[], Grouped(itemRows), Grouped(groupRows), Grouped(brandRows)))
  {
    var items := GroupRows(itemRows);
    var groups := GroupRows(groupRows);
    var brands := GroupRows(brandRows);
    var t := SchemeTables(map[], map[], items, groups, brands);
    offers := [];
    var i := 0;
    while i < |rules|
      invariant 0 <= i <= |rules|
      invariant offers == StandaloneOffers(rules[..i], t)
    {
      assert rules[..i + 1][..i] == rules[..i];
      offers := offers + [StandaloneOffer(rules[i], t)];
      i := i + 1;
    }
    assert rules[..i] == rules;
  }

  /** The coupon table as the usage endpoints change it. */
  class CouponLedger {
    var coupons: map<string, Coupon>

    constructor(initial: map<string, Coupon>)
      ensures coupons == initial
    {
      coupons := initial;
    }

    /** `apply_coupon_to_invoice`; `Err` is the message thrown, and the
        table is then unchanged. */
    method ApplyToInvoice(tableExists: bool, offers: map<string, PosOffer>, canWrite: bool, code: string)
      returns (r: Result<Coupon>)
      modifies this
      ensures var outcome := ApplyCouponToInvoice(CouponDb(tableExists, old(coupons), offers), canWrite, code);
        (outcome.Ok? ==> coupons == outcome.value && r == Ok(coupons[ToUpper(code)])) &&
        (outcome.Err? ==> coupons == old(coupons) && r == Err(outcome.msg))
    {
      var db := CouponDb(tableExists, coupons, offers);
      var outcome := ApplyCouponToInvoice(db, canWrite, code);
      if outcome.Ok? {
        ApplyCouponToInvoiceFacts(db, canWrite, code);
        coupons := outcome.value;
        r := Ok(coupons[ToUpper(code)]);
      } else {
        r := Err(outcome.msg);
      }
    }

    /** `cancel_coupon_usage`. */
    method CancelUsage(tableExists: bool, offers: map<string, PosOffer>, canWrite: bool, code: string)
      returns (r: CancelOutcome)
      modifies this
      ensures r == CancelCouponUsage(CouponDb(tableExists, old(coupons), offers), canWrite, code)
      ensures coupons == (if r.Cancelled? then r.coupons else old(coupons))
    {
      r := CancelCouponUsage(CouponDb(tableExists, coupons, offers), canWrite, code);
      if r.Cancelled? {
        coupons := r.coupons;
      }
    }
  }
}
